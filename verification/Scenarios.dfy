/** Runs that reach what the guarantees leave open: a Ready tunnel whose port is closed
    with no retry pending or forwards to a deleted tunnel, a Ready tunnel without a
    gateway key or at a revision nobody acknowledged, and a reused name that is Ready
    on old acknowledgements. */
module Scenarios {
  import opened TunnelTypes
  import opened PortAlloc
  import opened UdpProxy
  import opened ForwarderService
  import opened ForwarderClient
  import opened Reconciler
  import opened Protocol
  import opened Invariant
  import PortSafety
  import Exposure
  import StatusRuns
  import Guarantees

  // ---------------------------------------------------------------- reachable states

  /** Some run ends in the state. */
  ghost predicate Reachable(s: State) {
    exists states, steps :: IsRun(states, steps) && states[|steps|] == s
  }

  lemma ReachStep(s: State, step: Step, s': State)
    requires Reachable(s)
    requires s.op.alloc.Valid() ==> Enabled(s, step) && s' == Do(s, step)
    ensures Reachable(s')
  {
    var states, steps :| IsRun(states, steps) && states[|steps|] == s;
    InvOverRuns(states, steps, |steps|);
    var states', steps' := states + [s'], steps + [step];
    forall i | 0 <= i < |steps'|
      ensures Next(states'[i], steps'[i], states'[i + 1])
    {
      if i < |steps| {
        assert Next(states[i], steps[i], states[i + 1]);
      }
    }
    assert IsRun(states', steps');
  }

  /** One port is enough. */
  const PORT: int32 := 51820

  const FORWARDER: Id := "forwarder-0"

  function Start(): State {
    State(Operator(map[], map[], NewAlloc(PORT, PORT), map[], map[]), map[], map[], {}, {}, [], {})
  }

  lemma StartReachable()
    ensures Reachable(Start())
  {
    assert Init(Start());
    assert IsRun([Start()], []);
  }

  // ---------------------------------------------------------------- reconciles

  /** Every call succeeds; the gateway answers with its key and the VIP is not known yet. */
  function AllWell(uid: string): Env {
    Env(true, true, true, true, true, uid, true, 0, Fetched("key"), VipError, true, true, true, true)
  }

  function ReadyPod(uid: string, ip: string): Pod {
    Pod(uid, ip, PodRunning, [Condition("Ready", true)])
  }

  function Started(k: Key, uid: string): Status {
    Status(Provisioning, GatewayPodStarting, "", PORT, "", GatewayResourceName(k.name), uid, "", 1)
  }

  function Serving(k: Key, uid: string, ip: string, ready: bool): Status {
    Status(if ready then Ready else Provisioning, if ready then GatewayReady else WaitingForAcks,
           "key", PORT, "", GatewayResourceName(k.name), uid, ip, 2)
  }

  function MappingAt(k: Key, ip: string): Mapping {
    Mapping(k, PORT, GatewayAddress(ip), 2)
  }

  function Held(a: Alloc, k: Key): Alloc {
    a.(allocations := a.allocations[k := PORT], used := a.used[PORT := k])
  }

  ghost predicate AllFree(a: Alloc) {
    a == Alloc(PORT, PORT, map[], map[])
  }

  lemma FirstPort(a: Alloc, k: Key, start: int)
    requires AllFree(a) && 0 <= start < a.RangeSize()
    ensures a.Allocate(k, start) == (Held(a, k), Some(PORT))
  {
    AllocateCompleteness(a, k, start);
  }

  lemma FirstLook(k: Key, seen: Seen, uid: string)
    requires seen.pod == NewPod(AllWell(uid))
    ensures Observe(k, EMPTY_STATUS, PORT, seen) == Evaluated(Started(k, uid), 0)
    ensures Published(k, EMPTY_STATUS, seen.pod, Started(k, uid)) == []
  {
  }

  lemma FirstSetup<R(!new)>(op: Operator<R>, k: Key, uid: string)
    requires AllFree(op.alloc) && k in op.tunnels && op.tunnels[k] == NEW_TUNNEL && k !in op.pods
    ensures Prepare(op, k, AllWell(uid))
         == (op.(tunnels := op.tunnels[k := Tunnel(false, true, EMPTY_STATUS)],
             pods := op.pods[k := NewPod(AllWell(uid))], alloc := Held(op.alloc, k)), SetUp(NewPod(AllWell(uid)), PORT))
  {
    FirstPort(op.alloc, k, 0 % op.alloc.RangeSize());
  }

  /** The first reconcile of a new tunnel creates its pod and records its port. */
  lemma FirstReconcile<R(!new)>(op: Operator<R>, k: Key, uid: string)
    requires AllFree(op.alloc) && k in op.tunnels && op.tunnels[k] == NEW_TUNNEL && k !in op.pods
    ensures Reconciler.Reconcile(op, k, AllWell(uid))
         == Result(op.(tunnels := op.tunnels[k := Tunnel(false, true, Started(k, uid))],
                   pods := op.pods[k := NewPod(AllWell(uid))], alloc := Held(op.alloc, k)), [], false, 0)
  {
    var env := AllWell(uid);
    var op1 := op.(tunnels := op.tunnels[k := Tunnel(false, true, EMPTY_STATUS)], pods := op.pods[k := NewPod(env)], alloc := Held(op.alloc, k));
    FirstSetup(op, k, uid);
    FirstLook(k, SeenBy(op1, NewPod(env), env), uid);
    assert op1.tunnels[k := Tunnel(false, true, Started(k, uid))] == op.tunnels[k := Tunnel(false, true, Started(k, uid))];
    assert Commit(op1, k, NewPod(env), PORT, env) == Result(op1.(tunnels := op.tunnels[k := Tunnel(false, true, Started(k, uid))]), [], false, 0);
    assert ReconcileLive(op, k, env) == Commit(op1, k, NewPod(env), PORT, env);
  }

  /** What the second reconcile publishes. */
  function Announcement(k: Key, ip: string, ready: bool): seq<Update> {
    var u := Update(Modified, MappingAt(k, ip));
    if ready then [u] else [u, u]
  }

  /** The second look at the pod, which is ready by now: the tunnel becomes Ready unless
      an acknowledgement of revision 2 is missing. */
  lemma SecondLook(k: Key, seen: Seen, uid: string, ip: string, ready: bool)
    requires seen.pod == ReadyPod(uid, ip) && ip != "" && seen.fetch == Fetched("key") && seen.vip == VipError
    requires ready <==> Missing(seen.ids, seen.acks, k, 2) == {}
    ensures Observe(k, Started(k, uid), PORT, seen) == Evaluated(Serving(k, uid, ip, ready), REQUEUE_SECONDS)
    ensures Published(k, Started(k, uid), seen.pod, Serving(k, uid, ip, ready)) == Announcement(k, ip, ready)
  {
    assert IsPodReady(seen.pod.conditions);
  }

  lemma SecondReconcile<R(!new)>(op: Operator<R>, k: Key, uid: string, ip: string, ready: bool)
    requires op.alloc.Valid() && k in op.tunnels && op.tunnels[k] == Tunnel(false, true, Started(k, uid))
    requires k in op.pods && op.pods[k] == ReadyPod(uid, ip) && ip != ""
    requires ready <==> Missing(Ids(op.streams), op.acks, k, 2) == {}
    ensures Reconciler.Reconcile(op, k, AllWell(uid))
         == Result(op.(tunnels := op.tunnels[k := Tunnel(false, true, Serving(k, uid, ip, ready))],
                   streams := NotifyAll(op.streams, Announcement(k, ip, ready))), Announcement(k, ip, ready), false, REQUEUE_SECONDS)
  {
    var env, pod := AllWell(uid), ReadyPod(uid, ip);
    assert op.tunnels[k := op.tunnels[k].(finalizer := true)] == op.tunnels;
    assert Prepare(op, k, env) == (op, SetUp(pod, PORT));
    SecondLook(k, SeenBy(op, pod, env), uid, ip, ready);
    assert ReconcileLive(op, k, env) == Commit(op, k, pod, PORT, env);
  }

  /** Once the acknowledgements are there, the tunnel becomes Ready and nothing is published. */
  lemma ThirdReconcile<R(!new)>(op: Operator<R>, k: Key, uid: string, ip: string)
    requires op.alloc.Valid() && k in op.tunnels && op.tunnels[k] == Tunnel(false, true, Serving(k, uid, ip, false))
    requires k in op.pods && op.pods[k] == ReadyPod(uid, ip) && ip != ""
    requires Missing(Ids(op.streams), op.acks, k, 2) == {}
    ensures Reconciler.Reconcile(op, k, AllWell(uid))
         == Result(op.(tunnels := op.tunnels[k := Tunnel(false, true, Serving(k, uid, ip, true))]), [], false, REQUEUE_SECONDS)
  {
    var env, pod := AllWell(uid), ReadyPod(uid, ip);
    var seen := SeenBy(op, pod, env);
    assert op.tunnels[k := op.tunnels[k].(finalizer := true)] == op.tunnels;
    assert Prepare(op, k, env) == (op, SetUp(pod, PORT));
    assert IsPodReady(seen.pod.conditions);
    assert Observe(k, Serving(k, uid, ip, false), PORT, seen) == Evaluated(Serving(k, uid, ip, true), REQUEUE_SECONDS);
    assert Published(k, Serving(k, uid, ip, false), pod, Serving(k, uid, ip, true)) == [];
    assert NotifyAll(op.streams, []) == op.streams;
    assert ReconcileLive(op, k, env) == Commit(op, k, pod, PORT, env);
  }

  lemma DeletingReconcile<R(!new)>(op: Operator<R>, k: Key, uid: string, ip: string, ready: bool)
    requires op.alloc.Valid() && k in op.tunnels && op.tunnels[k] == Tunnel(true, true, Serving(k, uid, ip, ready))
    ensures var us := [Update(Deleted, MappingAt(k, ip))];
            Reconciler.Reconcile(op, k, AllWell(uid))
            == Result(op.(tunnels := op.tunnels - {k}, pods := op.pods - {k}, alloc := op.alloc.Release(k),
                      streams := NotifyAll(op.streams, us)), us, false, 0)
  {
    assert TunnelUpdate(k, Serving(k, uid, ip, ready), Deleted) == [Update(Deleted, MappingAt(k, ip))];
  }

  // ---------------------------------------------------------------- steps of a scenario

  lemma ReachReconcile(s: State, k: Key, uid: string)
    requires Reachable(s) && s.op.alloc.Valid()
    requires k in s.op.tunnels && k !in s.op.pods ==> uid != s.op.tunnels[k].status.podUid
    ensures Reachable(DoReconcile(s, k, AllWell(uid)))
  {
    ReachStep(s, ReconcileTunnel(k, AllWell(uid)), DoReconcile(s, k, AllWell(uid)));
  }

  lemma ReachCreate(s: State, k: Key)
    requires Reachable(s) && k !in s.op.tunnels && k !in s.retired
    ensures Reachable(DoCreate(s, k))
  {
    ReachStep(s, CreateTunnel(k), DoCreate(s, k));
  }

  /** A new tunnel gets its pod and its port. */
  lemma StartPod(s: State, k: Key, uid: string) returns (s': State)
    requires Reachable(s) && AllFree(s.op.alloc) && uid != ""
    requires k in s.op.tunnels && s.op.tunnels[k] == NEW_TUNNEL && k !in s.op.pods
    ensures Reachable(s')
    ensures s' == s.(op := s.op.(tunnels := s.op.tunnels[k := Tunnel(false, true, Started(k, uid))],
                  pods := s.op.pods[k := NewPod(AllWell(uid))], alloc := Held(s.op.alloc, k)))
  {
    FirstReconcile(s.op, k, uid);
    ReachReconcile(s, k, uid);
    s' := DoReconcile(s, k, AllWell(uid));
    assert Exposing([]) == {} && s.exposed + {} == s.exposed && s.log + [] == s.log;
  }

  /** A tunnel of this name is created and its pod started. */
  lemma Create(s: State, k: Key, uid: string) returns (s': State)
    requires Reachable(s) && AllFree(s.op.alloc) && uid != ""
    requires k !in s.op.tunnels && k !in s.op.pods && k !in s.retired
    ensures Reachable(s')
    ensures s' == s.(op := s.op.(tunnels := s.op.tunnels[k := Tunnel(false, true, Started(k, uid))],
                  pods := s.op.pods[k := NewPod(AllWell(uid))], alloc := Held(s.op.alloc, k)))
  {
    ReachCreate(s, k);
    s' := StartPod(DoCreate(s, k), k, uid);
    assert s.op.tunnels[k := NEW_TUNNEL][k := Tunnel(false, true, Started(k, uid))] == s.op.tunnels[k := Tunnel(false, true, Started(k, uid))];
  }

  /** Its pod becomes ready and the mapping is published. */
  lemma Publish(s: State, k: Key, uid: string, ip: string, ready: bool) returns (s': State)
    requires Reachable(s) && s.op.alloc.Valid() && k in s.op.tunnels && s.op.tunnels[k] == Tunnel(false, true, Started(k, uid))
    requires k in s.op.pods && s.op.pods[k] == NewPod(AllWell(uid)) && ip != ""
    requires ready <==> Missing(Ids(s.op.streams), s.op.acks, k, 2) == {}
    ensures Reachable(s')
    ensures var us := Announcement(k, ip, ready);
            s' == s.(op := s.op.(tunnels := s.op.tunnels[k := Tunnel(false, true, Serving(k, uid, ip, ready))],
            pods := s.op.pods[k := ReadyPod(uid, ip)], streams := NotifyAll(s.op.streams, us)),
            exposed := s.exposed + Exposing(us), log := s.log + us)
  {
    var s1 := s.(op := s.op.(pods := s.op.pods[k := ReadyPod(uid, ip)]));
    ReachStep(s, ChangePod(k, ReadyPod(uid, ip)), s1);
    SecondReconcile(s1.op, k, uid, ip, ready);
    ReachReconcile(s1, k, uid);
    s' := DoReconcile(s1, k, AllWell(uid));
  }

  /** The tunnel is deleted; its port is free again. */
  lemma Delete(s: State, k: Key, uid: string, ip: string, ready: bool) returns (s': State)
    requires Reachable(s) && s.op.alloc.Valid() && k in s.op.tunnels && s.op.tunnels[k] == Tunnel(false, true, Serving(k, uid, ip, ready))
    requires k in s.op.pods
    ensures Reachable(s')
    ensures var us := [Update(Deleted, MappingAt(k, ip))];
            s' == s.(op := s.op.(tunnels := s.op.tunnels - {k}, pods := s.op.pods - {k},
            alloc := s.op.alloc.Release(k), streams := NotifyAll(s.op.streams, us)),
            retired := s.retired + {k}, log := s.log + us)
  {
    var s1 := DoDelete(s, k);
    ReachStep(s, DeleteTunnel(k), s1);
    assert s1.op.tunnels == s.op.tunnels[k := Tunnel(true, true, Serving(k, uid, ip, ready))];
    DeletingReconcile(s1.op, k, uid, ip, ready);
    ReachReconcile(s1, k, uid);
    s' := DoReconcile(s1, k, AllWell(uid));
    var us := [Update(Deleted, MappingAt(k, ip))];
    assert Exposing(us) == {} && s.exposed + {} == s.exposed;
    assert s1.op.tunnels - {k} == s.op.tunnels - {k};
  }

  function OneStream(queue: seq<Update>): map<nat, Stream> {
    map[0 := Stream(FORWARDER, queue, false)]
  }

  /** The forwarder's one stream: what is queued for it, how far its barrier is, and nothing
      in transit. */
  ghost predicate Link(s: State, f: Forwarder, barrier: Barrier, queue: seq<Update>) {
    && s.op.streams == OneStream(queue)
    && 0 in s.wires && s.wires[0].id == FORWARDER && s.wires[0].barrier == barrier && s.wires[0].pending == []
    && FORWARDER in s.forwarders && s.forwarders[FORWARDER] == f
  }

  /** The steps in between leave everything else of the operator and the records alone. */
  ghost predicate SameStore(s: State, s': State) {
    s'.op == s.op.(streams := s'.op.streams) && s'.retired == s.retired
  }

  lemma {:induction false} QueueGrows(queue: seq<Update>, us: seq<Update>)
    requires |queue| + |us| <= QUEUE_CAPACITY
    ensures NotifyAll(OneStream(queue), us) == OneStream(queue + us)
    decreases |us|
  {
    if us == [] {
      assert queue + us == queue;
    } else {
      assert Notify(OneStream(queue), us[0]) == OneStream(queue + [us[0]]);
      QueueGrows(queue + [us[0]], us[1..]);
      assert queue + [us[0]] + us[1..] == queue + us;
    }
  }

  lemma ReachInv(s: State)
    requires Reachable(s)
    ensures Inv(s)
  {
    var states, steps :| IsRun(states, steps) && states[|steps|] == s;
    InvOverRuns(states, steps, |steps|);
  }

  /** A forwarder starts and its stream is registered. */
  lemma Open() returns (s: State)
    ensures Reachable(s)
    ensures s.op == Start().op.(streams := OneStream([])) && s.retired == {} && s.sent == {}
    ensures Link(s, Forwarder(map[], {}, AwaitSync(0)), NotSent, [])
  {
    StartReachable();
    var s1 := SetForwarder(Start(), FORWARDER, Forwarder(map[], {}, Offline));
    ReachStep(Start(), StartForwarder(FORWARDER), s1);
    s := DoOpen(s1, FORWARDER, 0);
    ReachStep(s1, OpenStream(FORWARDER, 0), s);
  }

  /** The barrier passes. */
  lemma Sync(s: State, f: Forwarder, queue: seq<Update>) returns (s': State)
    requires Reachable(s) && Link(s, f, NotSent, queue) && f.stage == AwaitSync(0)
    ensures Reachable(s') && SameStore(s, s') && s'.sent == s.sent
    ensures Link(s', f.(stage := Synced(0)), Taken, queue)
  {
    var s1 := DoSendSync(s, 0);
    ReachStep(s, SendSync(0), s1);
    s' := DoReceiveSync(s1, FORWARDER);
    ReachStep(s1, ReceiveSync(FORWARDER), s');
  }

  lemma Fetch(s: State, f: Forwarder, queue: seq<Update>, order: seq<Key>) returns (s': State)
    requires Reachable(s) && Link(s, f, Taken, queue) && f.stage == Synced(0) && Lists(s.op.tunnels, order)
    ensures Reachable(s') && SameStore(s, s') && s'.sent == s.sent
    ensures Link(s', f.(stage := Snapshotted(0, SnapshotOf(s.op.tunnels, order))), Taken, queue)
  {
    ReachInv(s);
    PortSafety.FetchKeepsAlloc(s.op, order);
    s' := DoFetch(s, FORWARDER, order, Snapshotted(0, SnapshotOf(s.op.tunnels, order)));
    ReachStep(s, FetchSnapshot(FORWARDER, order), s');
  }

  /** The snapshot is applied and acknowledged. */
  lemma Settle(s: State, f: Forwarder, queue: seq<Update>, ms: seq<Mapping>, listens: seq<bool>) returns (s': State)
    requires Reachable(s) && Link(s, f, Taken, queue) && f.stage == Snapshotted(0, ms) && |listens| == |ms|
    requires UdpProxy.Reconcile(f.table, ms, listens).1
    ensures Reachable(s') && SameStore(s, s') && s'.sent == s.sent + SnapshotAcks(FORWARDER, ms, |ms|)
    ensures Link(s', Forwarder(UdpProxy.Reconcile(f.table, ms, listens).0, {}, Live(0)), Taken, queue)
  {
    s' := DoApplySnapshot(s, FORWARDER, listens, |ms|);
    ReachStep(s, ApplySnapshot(FORWARDER, listens, |ms|), s');
  }

  lemma ReachSend(s: State, f: Forwarder, queue: seq<Update>)
    requires Reachable(s) && Link(s, f, Taken, queue) && queue != []
    ensures Reachable(DoSend(s, 0))
  {
    ReachStep(s, SendUpdate(0), DoSend(s, 0));
  }

  lemma ReachReceive(s: State, listenOk: bool, ackSent: bool)
    requires Reachable(s) && FORWARDER in s.forwarders && s.forwarders[FORWARDER].stage == Live(0)
    requires 0 in s.wires && s.wires[0].pending != []
    ensures Reachable(DoReceive(s, FORWARDER, listenOk, ackSent))
  {
    ReachStep(s, ReceiveUpdate(FORWARDER, listenOk, ackSent), DoReceive(s, FORWARDER, listenOk, ackSent));
  }

  /** The first queued update is sent and taken. */
  lemma Deliver(s: State, f: Forwarder, queue: seq<Update>, listenOk: bool, ackSent: bool) returns (s': State)
    requires Reachable(s) && Link(s, f, Taken, queue) && f.stage == Live(0) && queue != []
    ensures Reachable(s') && SameStore(s, s')
    ensures s'.sent == s.sent + if HandleUpdate(f.table, queue[0], listenOk).1.Applied? && ackSent
                       then {AckMessage(FORWARDER, queue[0].mapping.key, queue[0].mapping.revision)} else {}
    ensures Link(s', AfterUpdate(f, queue[0], listenOk), Taken, queue[1..])
  {
    ReachSend(s, f, queue);
    var s1 := DoSend(s, 0);
    assert s1.wires[0].pending == [queue[0]];
    ReachReceive(s1, listenOk, ackSent);
    s' := DoReceive(s1, FORWARDER, listenOk, ackSent);
  }

  /** The operator records an acknowledgement of revision 2. */
  lemma Acknowledge(s: State, k: Key, f: Forwarder, barrier: Barrier, queue: seq<Update>) returns (s': State)
    requires Reachable(s) && Link(s, f, barrier, queue) && AckMessage(FORWARDER, k, 2) in s.sent
    requires k.name != "" && k.namespace != "" && Acked(s.op.acks, FORWARDER, k) == 0
    ensures Reachable(s') && s' == s.(op := s.op.(acks := s'.op.acks))
    ensures Acked(s'.op.acks, FORWARDER, k) == 2
  {
    assert s.op.streams[0].id == FORWARDER;
    assert FORWARDER in Ids(s.op.streams);
    s' := DoTakeAck(s, AckMessage(FORWARDER, k, 2));
    ReachStep(s, TakeAck(AckMessage(FORWARDER, k, 2)), s');
  }

  /** With its acknowledgement in, the tunnel turns Ready. */
  lemma TurnReady(s: State, k: Key, uid: string, ip: string) returns (s': State)
    requires Reachable(s) && s.op.alloc.Valid() && k in s.op.tunnels && s.op.tunnels[k] == Tunnel(false, true, Serving(k, uid, ip, false))
    requires k in s.op.pods && s.op.pods[k] == ReadyPod(uid, ip) && ip != ""
    requires Missing(Ids(s.op.streams), s.op.acks, k, 2) == {}
    ensures Reachable(s')
    ensures s' == s.(op := s.op.(tunnels := s.op.tunnels[k := Tunnel(false, true, Serving(k, uid, ip, true))]))
  {
    ThirdReconcile(s.op, k, uid, ip);
    ReachReconcile(s, k, uid);
    s' := DoReconcile(s, k, AllWell(uid));
    assert Exposing([]) == {} && s.exposed + {} == s.exposed && s.log + [] == s.log;
  }

  // ---------------------------------------------------------------- coming and going

  function Announced(k: Key, ip: string): Update {
    Update(Modified, MappingAt(k, ip))
  }

  function Withdrawn(k: Key, ip: string): Update {
    Update(Deleted, MappingAt(k, ip))
  }

  lemma HeldThenReleased(a: Alloc, k: Key)
    requires AllFree(a)
    ensures Held(a, k).Valid() && AllFree(Held(a, k).Release(k))
  {
  }

  lemma NoAckYet(queue: seq<Update>, acks: Acks, k: Key)
    requires Acked(acks, FORWARDER, k) < 2
    ensures Missing(Ids(OneStream(queue)), acks, k, 2) != {}
  {
    assert OneStream(queue)[0].id == FORWARDER;
    assert FORWARDER in Missing(Ids(OneStream(queue)), acks, k, 2);
  }

  lemma OnlyAck(queue: seq<Update>, acks: Acks, k: Key)
    requires Acked(acks, FORWARDER, k) == 2
    ensures Missing(Ids(OneStream(queue)), acks, k, 2) == {}
  {
  }

  /** The tunnel waits for the acknowledgement of revision 2. */
  ghost predicate Waits(op: Operator<nat>, k: Key, uid: string, ip: string) {
    && k in op.tunnels && op.tunnels[k] == Tunnel(false, true, Serving(k, uid, ip, false))
    && k in op.pods && op.pods[k] == ReadyPod(uid, ip)
  }

  lemma PublishLinked(s: State, k: Key, uid: string, ip: string, f: Forwarder, barrier: Barrier, queue: seq<Update>) returns (s': State)
    requires Reachable(s) && s.op.alloc.Valid() && k in s.op.tunnels && s.op.tunnels[k] == Tunnel(false, true, Started(k, uid))
    requires k in s.op.pods && s.op.pods[k] == NewPod(AllWell(uid)) && ip != ""
    requires Link(s, f, barrier, queue) && |queue| + 2 <= QUEUE_CAPACITY && Acked(s.op.acks, FORWARDER, k) < 2
    ensures Reachable(s') && s'.sent == s.sent && s'.retired == s.retired && s'.op.alloc == s.op.alloc && s'.op.acks == s.op.acks
    ensures Waits(s'.op, k, uid, ip) && s'.op.tunnels.Keys == s.op.tunnels.Keys && s'.op.pods.Keys == s.op.pods.Keys
    ensures Link(s', f, barrier, queue + [Announced(k, ip), Announced(k, ip)])
  {
    NoAckYet(queue, s.op.acks, k);
    s' := Publish(s, k, uid, ip, false);
    QueueGrows(queue, Announcement(k, ip, false));
  }

  /** A tunnel comes while the forwarder's stream is registered, and is announced twice. */
  lemma Come(s: State, k: Key, uid: string, ip: string, f: Forwarder, barrier: Barrier, queue: seq<Update>) returns (s': State)
    requires Reachable(s) && AllFree(s.op.alloc) && uid != "" && ip != ""
    requires s.op.tunnels.Keys == {} && s.op.pods.Keys == {} && k !in s.retired
    requires Link(s, f, barrier, queue) && |queue| + 2 <= QUEUE_CAPACITY && Acked(s.op.acks, FORWARDER, k) < 2
    ensures Reachable(s') && s'.sent == s.sent && s'.retired == s.retired && s'.op.acks == s.op.acks
    ensures s'.op.alloc == Held(s.op.alloc, k) && s'.op.alloc.Valid()
    ensures Waits(s'.op, k, uid, ip) && s'.op.tunnels.Keys == {k} && s'.op.pods.Keys == {k}
    ensures Link(s', f, barrier, queue + [Announced(k, ip), Announced(k, ip)])
  {
    var s1 := Create(s, k, uid);
    HeldThenReleased(s.op.alloc, k);
    assert s1.op.tunnels.Keys == {k} && s1.op.pods.Keys == {k} && Link(s1, f, barrier, queue);
    s' := PublishLinked(s1, k, uid, ip, f, barrier, queue);
  }

  /** It goes again, and its port is free. */
  lemma Go(s: State, k: Key, uid: string, ip: string, f: Forwarder, barrier: Barrier, queue: seq<Update>, a: Alloc) returns (s': State)
    requires Reachable(s) && AllFree(a) && s.op.alloc == Held(a, k)
    requires Waits(s.op, k, uid, ip) && s.op.tunnels.Keys == {k} && s.op.pods.Keys == {k}
    requires Link(s, f, barrier, queue) && |queue| + 1 <= QUEUE_CAPACITY
    ensures Reachable(s') && s'.sent == s.sent && s'.retired == s.retired + {k} && s'.op.acks == s.op.acks
    ensures AllFree(s'.op.alloc) && s'.op.tunnels.Keys == {} && s'.op.pods.Keys == {}
    ensures Link(s', f, barrier, queue + [Withdrawn(k, ip)])
  {
    HeldThenReleased(a, k);
    s' := Delete(s, k, uid, ip, false);
    QueueGrows(queue, [Withdrawn(k, ip)]);
  }

  // ---------------------------------------------------------------- a reused port

  const OLD_IP := "10.0.0.1"
  const NEW_IP := "10.0.0.2"

  /** What is queued when tunnel `j` came and went and then tunnel `k` came. */
  function StaleQueue(j: Key, k: Key): seq<Update> {
    [Announced(j, OLD_IP), Announced(j, OLD_IP)] + [Withdrawn(j, OLD_IP)] + [Announced(k, NEW_IP), Announced(k, NEW_IP)]
  }

  /** Two tunnels have had the port in turn since the stream was registered. */
  lemma TwoOnOnePort(j: Key, k: Key) returns (s: State)
    requires j != k
    ensures Reachable(s) && s.sent == {} && s.op.alloc.Valid() && s.op.acks == map[]
    ensures Waits(s.op, k, "2", NEW_IP) && s.op.tunnels.Keys == {k}
    ensures Link(s, Forwarder(map[], {}, AwaitSync(0)), NotSent, StaleQueue(j, k))
  {
    var f := Forwarder(map[], {}, AwaitSync(0));
    var s0 := Open();
    assert AllFree(s0.op.alloc);
    var s1 := Come(s0, j, "1", OLD_IP, f, NotSent, []);
    var twice := [Announced(j, OLD_IP), Announced(j, OLD_IP)];
    assert [] + twice == twice;
    var s2 := Go(s1, j, "1", OLD_IP, f, NotSent, twice, s0.op.alloc);
    s := Come(s2, k, "2", NEW_IP, f, NotSent, twice + [Withdrawn(j, OLD_IP)]);
  }

  lemma SnapshotOfOne(tunnels: map<Key, Tunnel>, k: Key)
    requires tunnels.Keys == {k} && Eligible(tunnels[k])
    ensures Lists(tunnels, [k])
    ensures SnapshotOf(tunnels, [k]) == [MappingOf(k, tunnels[k].status)]
  {
    var items := Items(tunnels, [k]);
    assert items == [Item(k, tunnels[k])];
    assert items[..0] == [] && Snapshot([]) == [];
    assert Snapshot(items) == [] + [MappingOf(k, tunnels[k].status)];
  }

  lemma OneMappingApplies(m: Mapping)
    requires ValidMapping(m)
    ensures UdpProxy.Reconcile(map[], [m], [true]) == (map[m.port := EntryOf(m)], true)
  {
    var t: Table := map[m.port := EntryOf(m)];
    assert Apply(map[], m, true) == (t, true);
    assert [m][1..] == [] && [true][1..] == [];
    assert ApplyAll(map[], [m], [true]) == (t, true);
    assert m in [m] && m.port in DesiredPorts([m]);
    assert Restrict(t, DesiredPorts([m])) == t;
  }

  function Holding(k: Key, ip: string): Forwarder {
    Forwarder(map[PORT := EntryOf(MappingAt(k, ip))], {}, Live(0))
  }

  /** From there, the forwarder joins: it takes and acknowledges the snapshot of `k`. */
  lemma Join(s: State, k: Key, queue: seq<Update>) returns (s': State)
    requires Reachable(s) && s.sent == {} && Waits(s.op, k, "2", NEW_IP) && s.op.tunnels.Keys == {k}
    requires Link(s, Forwarder(map[], {}, AwaitSync(0)), NotSent, queue)
    ensures Reachable(s') && SameStore(s, s') && AckMessage(FORWARDER, k, 2) in s'.sent
    ensures Link(s', Holding(k, NEW_IP), Taken, queue)
  {
    var m := MappingAt(k, NEW_IP);
    var s1 := Sync(s, Forwarder(map[], {}, AwaitSync(0)), queue);
    SnapshotOfOne(s.op.tunnels, k);
    var s2 := Fetch(s1, Forwarder(map[], {}, Synced(0)), queue, [k]);
    OneMappingApplies(m);
    s' := Settle(s2, Forwarder(map[], {}, Snapshotted(0, [m])), queue, [m], [true]);
    Exposure.GatewayNotBlank(NEW_IP);
    assert [m][0] == m;
    assert AckMessage(FORWARDER, k, 2) in SnapshotAcks(FORWARDER, [m], 1);
  }

  /** Tunnel `k` is Ready, and its forwarder has yet to replay the updates of tunnel `j`,
      which had the port before and is gone. */
  lemma ReadyBeforeReplay(j: Key, k: Key) returns (s: State)
    requires j != k && k.name != "" && k.namespace != ""
    ensures Reachable(s) && s.op.tunnels.Keys == {k} && s.op.tunnels[k] == Tunnel(false, true, Serving(k, "2", NEW_IP, true))
    ensures Link(s, Holding(k, NEW_IP), Taken, StaleQueue(j, k))
  {
    var s0 := TwoOnOnePort(j, k);
    var queue := StaleQueue(j, k);
    var s1 := Join(s0, k, queue);
    var s2 := Acknowledge(s1, k, Holding(k, NEW_IP), Taken, queue);
    OnlyAck(queue, s2.op.acks, k);
    s := TurnReady(s2, k, "2", NEW_IP);
  }

  /** The tunnel is Ready and to be served on the port. */
  predicate ReadyOn(s: State, k: Key) {
    k in s.op.tunnels && s.op.tunnels[k].status.phase == Ready && Eligible(s.op.tunnels[k]) && s.op.tunnels[k].status.port == PORT
  }

  /** A reachable state in which the port of a Ready tunnel forwards to the gateway of a
      tunnel that no longer exists: a stale update takes the port over until the
      updates behind it are taken. */
  lemma ReadyForwardsToDeleted(j: Key, k: Key)
    requires j != k && k.name != "" && k.namespace != ""
    ensures exists s :: Reachable(s) && ReadyOn(s, k) && j !in s.op.tunnels && Guarantees.Connected(s, FORWARDER)
                        && Lookup(s.forwarders[FORWARDER].table, PORT) == Some(Entry(j, GatewayAddress(OLD_IP), 2))
  {
    var s := ReadyBeforeReplay(j, k);
    var queue := StaleQueue(j, k);
    var s' := Deliver(s, Holding(k, NEW_IP), queue, true, false);
    assert queue[0] == Announced(j, OLD_IP);
    Exposure.GatewayNotBlank(OLD_IP);
    assert Lookup(AfterUpdate(Holding(k, NEW_IP), queue[0], true).table, PORT) == Some(Entry(j, GatewayAddress(OLD_IP), 2));
  }

  lemma TakesOver(k: Key, k': Key, ip: string, ip': string)
    requires k != k' || ip == ip'
    ensures AfterUpdate(Holding(k, ip), Announced(k', ip'), true) == Holding(k', ip')
  {
    Exposure.GatewayNotBlank(ip');
    var t: Table := Holding(k, ip).table;
    assert t[PORT := EntryOf(MappingAt(k', ip'))] == Holding(k', ip').table;
  }

  lemma Withdraws(k: Key, ip: string)
    ensures AfterUpdate(Holding(k, ip), Withdrawn(k, ip), true) == Forwarder(map[], {}, Live(0))
  {
    assert Holding(k, ip).table - {PORT} == map[];
  }

  /** One update is sent and taken, with a known effect. */
  lemma DeliverTo(s: State, f: Forwarder, u: Update, rest: seq<Update>, listenOk: bool, f': Forwarder) returns (s': State)
    requires Reachable(s) && Link(s, f, Taken, [u] + rest) && f.stage == Live(0) && AfterUpdate(f, u, listenOk) == f'
    ensures Reachable(s') && SameStore(s, s') && Link(s', f', Taken, rest)
  {
    s' := Deliver(s, f, [u] + rest, listenOk, false);
    assert ([u] + rest)[1..] == rest;
  }

  /** The old tunnel's updates are replayed: its mapping, the same again, its deletion. */
  lemma ReplayOld(s: State, j: Key, k: Key, rest: seq<Update>) returns (s': State)
    requires Reachable(s) && j != k
    requires Link(s, Holding(k, NEW_IP), Taken, [Announced(j, OLD_IP), Announced(j, OLD_IP), Withdrawn(j, OLD_IP)] + rest)
    ensures Reachable(s') && SameStore(s, s')
    ensures Link(s', Forwarder(map[], {}, Live(0)), Taken, rest)
  {
    var u, d := Announced(j, OLD_IP), Withdrawn(j, OLD_IP);
    assert [u, u, d] + rest == [u] + ([u] + ([d] + rest));
    TakesOver(k, j, NEW_IP, OLD_IP);
    var s1 := DeliverTo(s, Holding(k, NEW_IP), u, [u] + ([d] + rest), true, Holding(j, OLD_IP));
    TakesOver(j, j, OLD_IP, OLD_IP);
    var s2 := DeliverTo(s1, Holding(j, OLD_IP), u, [d] + rest, true, Holding(j, OLD_IP));
    Withdraws(j, OLD_IP);
    s' := DeliverTo(s2, Holding(j, OLD_IP), d, rest, true, Forwarder(map[], {}, Live(0)));
  }

  /** Then the new tunnel's own announcements are taken, but listening is refused. */
  lemma ReplayNew(s: State, k: Key) returns (s': State)
    requires Reachable(s)
    requires Link(s, Forwarder(map[], {}, Live(0)), Taken, [Announced(k, NEW_IP), Announced(k, NEW_IP)])
    ensures Reachable(s') && SameStore(s, s')
    ensures Link(s', Forwarder(map[], {PORT}, Live(0)), Taken, [])
  {
    var u := Announced(k, NEW_IP);
    var empty: Table := map[];
    Exposure.GatewayNotBlank(NEW_IP);
    assert empty - {PORT} == empty;
    assert AfterUpdate(Forwarder(empty, {}, Live(0)), u, false) == Forwarder(empty, {PORT}, Live(0));
    var s1 := Deliver(s, Forwarder(empty, {}, Live(0)), [u, u], false, false);
    assert [u, u][1..] == [u];
    assert AfterUpdate(Forwarder(empty, {PORT}, Live(0)), u, false) == Forwarder(empty, {PORT}, Live(0));
    s' := Deliver(s1, Forwarder(empty, {PORT}, Live(0)), [u], false, false);
    assert [u][1..] == [];
  }

  /** A reachable state in which the port of a Ready tunnel is closed on a connected
      forwarder and waits for a retry, with nothing pending: the replay of the stale
      updates dropped the tunnel's own listener, and listening again was refused. */
  lemma ReadyButClosed(j: Key, k: Key)
    requires j != k && k.name != "" && k.namespace != ""
    ensures exists s :: Reachable(s) && ReadyOn(s, k) && Guarantees.Connected(s, FORWARDER)
                        && Guarantees.AwaitsRetry(s, FORWARDER, PORT) && Guarantees.BacklogOf(s, FORWARDER) == []
                        && s.forwarders[FORWARDER].table == map[]
  {
    var s0 := ReadyBeforeReplay(j, k);
    var rest := [Announced(k, NEW_IP), Announced(k, NEW_IP)];
    assert StaleQueue(j, k) == [Announced(j, OLD_IP), Announced(j, OLD_IP), Withdrawn(j, OLD_IP)] + rest;
    var s1 := ReplayOld(s0, j, k, rest);
    var s2 := ReplayNew(s1, k);
    assert Guarantees.BacklogOf(s2, FORWARDER) == [];
  }

  // ---------------------------------------------------------------- a reused name

  /** The forwarder joins while there is no tunnel. */
  lemma JoinEmpty(s: State) returns (s': State)
    requires Reachable(s) && s.op.tunnels == map[] && Link(s, Forwarder(map[], {}, AwaitSync(0)), NotSent, [])
    ensures Reachable(s') && SameStore(s, s') && s'.sent == s.sent
    ensures Link(s', Forwarder(map[], {}, Live(0)), Taken, [])
  {
    var s1 := Sync(s, Forwarder(map[], {}, AwaitSync(0)), []);
    assert Lists(s1.op.tunnels, []);
    var s2 := Fetch(s1, Forwarder(map[], {}, Synced(0)), [], []);
    assert SnapshotOf(s1.op.tunnels, []) == [];
    var empty: Table := map[];
    assert Restrict(empty, DesiredPorts([])) == empty;
    assert UdpProxy.Reconcile(empty, [], []) == (empty, true);
    s' := Settle(s2, Forwarder(map[], {}, Snapshotted(0, [])), [], [], []);
  }

  /** A tunnel was created, applied and acknowledged at revision 2. */
  lemma AckedAndHeld(k: Key) returns (s: State)
    requires k.name != "" && k.namespace != ""
    ensures Reachable(s) && s.op.alloc == Held(Start().op.alloc, k)
    ensures Waits(s.op, k, "1", OLD_IP) && s.op.tunnels.Keys == {k} && s.op.pods.Keys == {k}
    ensures Acked(s.op.acks, FORWARDER, k) == 2
    ensures Link(s, Holding(k, OLD_IP), Taken, [])
  {
    var u := Announced(k, OLD_IP);
    var s0 := Open();
    var s1 := JoinEmpty(s0);
    assert AllFree(s1.op.alloc);
    var s2 := Come(s1, k, "1", OLD_IP, Forwarder(map[], {}, Live(0)), Taken, []);
    assert [] + [u, u] == [u, u];
    var s3 := TakeTwice(s2, k);
    s := Acknowledge(s3, k, Holding(k, OLD_IP), Taken, []);
  }

  /** Then it was deleted, and the forwarder has taken all of it. */
  lemma AckedAndGone(k: Key) returns (s: State)
    requires k.name != "" && k.namespace != ""
    ensures Reachable(s) && AllFree(s.op.alloc) && s.op.tunnels.Keys == {} && s.op.pods.Keys == {} && k in s.retired
    ensures Acked(s.op.acks, FORWARDER, k) == 2
    ensures Link(s, Forwarder(map[], {}, Live(0)), Taken, [])
  {
    var d := Withdrawn(k, OLD_IP);
    var s0 := AckedAndHeld(k);
    assert AllFree(Start().op.alloc);
    var s1 := Go(s0, k, "1", OLD_IP, Holding(k, OLD_IP), Taken, [], Start().op.alloc);
    assert [] + [d] == [d] && [d][1..] == [];
    assert AfterUpdate(Holding(k, OLD_IP), d, true) == Forwarder(map[], {}, Live(0));
    s := Deliver(s1, Holding(k, OLD_IP), [d], true, false);
  }

  lemma TakeTwice(s: State, k: Key) returns (s': State)
    requires Reachable(s) && Link(s, Forwarder(map[], {}, Live(0)), Taken, [Announced(k, OLD_IP), Announced(k, OLD_IP)])
    ensures Reachable(s') && SameStore(s, s') && AckMessage(FORWARDER, k, 2) in s'.sent
    ensures Link(s', Holding(k, OLD_IP), Taken, [])
  {
    var idle, u := Forwarder(map[], {}, Live(0)), Announced(k, OLD_IP);
    Exposure.GatewayNotBlank(OLD_IP);
    assert AfterUpdate(idle, u, true) == Holding(k, OLD_IP);
    var s1 := Deliver(s, idle, [u, u], true, true);
    assert [u, u][1..] == [u] && [u][1..] == [];
    assert AfterUpdate(Holding(k, OLD_IP), u, true) == Holding(k, OLD_IP);
    s' := Deliver(s1, Holding(k, OLD_IP), [u], true, true);
  }

  /** The name is used again, against the assumption: the operator after it has reconciled
      the new tunnel, and again once its pod is ready. */
  function AgainStarted(s: State, k: Key): Operator<nat>
    requires s.op.alloc.Valid()
  {
    Reconciler.Reconcile(DoCreate(s, k).op, k, AllWell("2")).op
  }

  ghost predicate AgainReady(s: State, k: Key)
    requires s.op.alloc.Valid()
  {
    var op := AgainStarted(s, k);
    && op.alloc.Valid()
    && var r := Reconciler.Reconcile(op.(pods := op.pods[k := ReadyPod("2", NEW_IP)]), k, AllWell("2"));
    && k in r.op.tunnels && r.op.tunnels[k].status == Serving(k, "2", NEW_IP, true)
    && r.published == [Announced(k, NEW_IP)]
  }

  lemma AgainReadyOn(s: State, k: Key)
    requires AllFree(s.op.alloc) && s.op.pods.Keys == {} && Acked(s.op.acks, FORWARDER, k) == 2 && s.op.streams == OneStream([])
    ensures AgainReady(s, k)
  {
    FirstReconcile(DoCreate(s, k).op, k, "2");
    HeldThenReleased(s.op.alloc, k);
    OnlyAck([], s.op.acks, k);
    var op := AgainStarted(s, k);
    SecondReconcile(op.(pods := op.pods[k := ReadyPod("2", NEW_IP)]), k, "2", NEW_IP, true);
  }

  /** If the name of a deleted tunnel is used again, the acknowledgements of the old tunnel
      make the new one Ready: here at its second revision, in the very reconcile that
      announces its mapping, while no forwarder has any mapping at all. */
  lemma ReusedKeyIsReadyAtOnce(k: Key)
    requires k.name != "" && k.namespace != ""
    ensures exists s :: Reachable(s) && k in s.retired && s.op.alloc.Valid() && AgainReady(s, k)
                        && s.op.streams == OneStream([])
                        && FORWARDER in s.forwarders && s.forwarders[FORWARDER].table == map[]
  {
    var s := AckedAndGone(k);
    AgainReadyOn(s, k);
  }

  // ---------------------------------------------------------------- a pod that slips through

  function PatchFails(uid: string): Env {
    AllWell(uid).(patchOk := false)
  }

  function NoAnswer(uid: string): Env {
    AllWell(uid).(fetch := FetchError)
  }

  /** A Ready tunnel, while no forwarder is connected, whose pod has been lost. */
  lemma ReadyPodLost(k: Key) returns (s: State)
    ensures Reachable(s) && s.op.alloc.Valid() && k in s.op.tunnels && k !in s.op.pods
    ensures s.op.tunnels[k] == Tunnel(false, true, Serving(k, "1", OLD_IP, true))
  {
    StartReachable();
    assert AllFree(Start().op.alloc);
    var s1 := Create(Start(), k, "1");
    HeldThenReleased(Start().op.alloc, k);
    assert Missing(Ids(s1.op.streams), s1.op.acks, k, 2) == {};
    var s2 := Publish(s1, k, "1", OLD_IP, true);
    s := s2.(op := s2.op.(pods := s2.op.pods - {k}));
    ReachStep(s2, LosePod(k), s);
  }

  /** A reachable state in which a Ready tunnel has no gateway key. */
  lemma ReadyWithoutKeyReachable(k: Key)
    ensures exists s :: Reachable(s) && k in s.op.tunnels && s.op.tunnels[k].status.phase == Ready && s.op.tunnels[k].status.publicKey == ""
  {
    var s0 := ReadyPodLost(k);
    var pod := ReadyPod("2", NEW_IP);
    assert "1"[0] == '1' && "2"[0] == '2';
    StatusRuns.ReadyWithoutKey(s0.op, k, PatchFails("2"), NoAnswer("2"), pod);
    var s1 := DoReconcile(s0, k, PatchFails("2"));
    ReachStep(s0, ReconcileTunnel(k, PatchFails("2")), s1);
    var s2 := s1.(op := s1.op.(pods := s1.op.pods[k := pod]));
    ReachStep(s1, ChangePod(k, pod), s2);
    var s3 := DoReconcile(s2, k, NoAnswer("2"));
    ReachStep(s2, ReconcileTunnel(k, NoAnswer("2")), s3);
  }

  // ---------------------------------------------------------------- a new address left unchecked

  function Moved(k: Key): Status {
    Serving(k, "1", OLD_IP, true).(podIp := NEW_IP, revision := 3)
  }

  /** A Ready tunnel whose pod has a new address, and whose gateway does not answer: it stays
      Ready at the next revision. */
  lemma MovedReconcile(op: Operator<nat>, k: Key)
    requires op.alloc.Valid() && k in op.tunnels && op.tunnels[k] == Tunnel(false, true, Serving(k, "1", OLD_IP, true))
    requires k in op.pods && op.pods[k] == ReadyPod("1", NEW_IP)
    ensures var r := Reconciler.Reconcile(op, k, NoAnswer("1"));
            && r.op.tunnels == op.tunnels[k := Tunnel(false, true, Moved(k))] && r.op.acks == op.acks
            && r.published == [Announced(k, NEW_IP).(mapping := Mapping(k, PORT, GatewayAddress(NEW_IP), 3))]
            && r.op.streams == NotifyAll(op.streams, r.published)
  {
    var env, pod := NoAnswer("1"), ReadyPod("1", NEW_IP);
    assert OLD_IP[7] == '1' && NEW_IP[7] == '2';
    assert op.tunnels[k := op.tunnels[k].(finalizer := true)] == op.tunnels;
    assert Prepare(op, k, env) == (op, SetUp(pod, PORT));
    assert IsPodReady(pod.conditions);
    assert Observe(k, Serving(k, "1", OLD_IP, true), PORT, SeenBy(op, pod, env)).status == Moved(k);
    assert ReconcileLive(op, k, env) == Commit(op, k, pod, PORT, env);
  }

  /** The tunnel is Ready and served, and its pod gets a new address. */
  lemma MovedPod(k: Key) returns (s: State)
    requires k.name != "" && k.namespace != ""
    ensures Reachable(s) && s.op.alloc.Valid() && k in s.op.tunnels && s.op.tunnels[k] == Tunnel(false, true, Serving(k, "1", OLD_IP, true))
    ensures k in s.op.pods && s.op.pods[k] == ReadyPod("1", NEW_IP) && Acked(s.op.acks, FORWARDER, k) == 2
    ensures Link(s, Holding(k, OLD_IP), Taken, [])
  {
    var s0 := AckedAndHeld(k);
    assert AllFree(Start().op.alloc);
    HeldThenReleased(Start().op.alloc, k);
    OnlyAck([], s0.op.acks, k);
    var s1 := TurnReady(s0, k, "1", OLD_IP);
    s := s1.(op := s1.op.(pods := s1.op.pods[k := ReadyPod("1", NEW_IP)]));
    ReachStep(s1, ChangePod(k, ReadyPod("1", NEW_IP)), s);
  }

  lemma MovedUnchecked(k: Key) returns (s: State)
    requires k.name != "" && k.namespace != ""
    ensures Reachable(s) && k in s.op.tunnels && s.op.tunnels[k] == Tunnel(false, true, Moved(k)) && Acked(s.op.acks, FORWARDER, k) == 2
    ensures exists queue :: Link(s, Holding(k, OLD_IP), Taken, queue)
  {
    var s0 := MovedPod(k);
    MovedReconcile(s0.op, k);
    var us := Reconciler.Reconcile(s0.op, k, NoAnswer("1")).published;
    QueueGrows([], us);
    s := DoReconcile(s0, k, NoAnswer("1"));
    ReachStep(s0, ReconcileTunnel(k, NoAnswer("1")), s);
    assert Link(s, Holding(k, OLD_IP), Taken, [] + us);
  }

  /** A reachable state in which a tunnel is Ready at a revision that its connected forwarder
      has not acknowledged. */
  lemma ReadyUnacked(k: Key)
    requires k.name != "" && k.namespace != ""
    ensures exists s :: Reachable(s) && ReadyOn(s, k) && s.op.tunnels[k].status.revision == 3
                        && Guarantees.Connected(s, FORWARDER)
                        && FORWARDER in Missing(Ids(s.op.streams), s.op.acks, k, 3)
  {
    var s := MovedUnchecked(k);
    var queue :| Link(s, Holding(k, OLD_IP), Taken, queue);
    assert s.op.streams[0].id == FORWARDER;
    assert FORWARDER in Ids(s.op.streams);
  }
}
