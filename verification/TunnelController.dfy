/** The reconciler as the program runs it: a tunnel copy updated step by step, API
    calls that may fail at any point, and updates offered to the forwarder service.
    Each method is proved against its function in module Reconciler. */
module TunnelController {
  import opened TunnelTypes
  import opened PortAlloc
  import opened ForwarderService
  import opened Reconciler

  /** The stored tunnels and gateway pods. */
  class ApiServer {
    var tunnels: map<Key, Tunnel>
    var pods: map<Key, Pod>

    constructor ()
      ensures tunnels == map[] && pods == map[]
    {
      tunnels, pods := map[], map[];
    }
  }

  class TunnelReconciler {
    const api: ApiServer
    const allocator: PortAllocator
    const server: ForwarderServer

    constructor (api: ApiServer, allocator: PortAllocator, server: ForwarderServer)
      ensures this.api == api && this.allocator == allocator && this.server == server
    {
      this.api, this.allocator, this.server := api, allocator, server;
    }

    ghost function View(): Operator<ForwarderStream>
      reads api, allocator, server, server.streams
    {
      Operator(api.tunnels, api.pods, allocator.View(), server.View(), server.acks)
    }

    ghost function Seeing(pod: Pod, env: Env): Seen
      reads server, server.streams
    {
      Seen(pod, env.fetch, Ids(server.View()), server.acks, env.vip)
    }

    method HandleReadyPod(key: Key, status: Status, pod: Pod, env: Env) returns (st: Status, updated: bool, requeue: nat)
      ensures Evaluated(st, requeue) == Reconciler.HandleReadyPod(key, status, Seeing(pod, env))
      ensures updated <==> st != status
    {
      st, updated, requeue := status, false, 0;
      if pod.ip != "" {
        if env.fetch.FetchError? {
          requeue := REQUEUE_SECONDS;
        } else if env.fetch.publicKey != "" {
          if st.publicKey != env.fetch.publicKey {
            st := st.(publicKey := env.fetch.publicKey);
            updated := true;
          }
          var missing := server.MissingAcks(key, st.revision);
          ghost var absent := Missing(Ids(server.View()), server.acks, key, st.revision);
          assert absent != {} <==> |missing| > 0 by {
            if |missing| > 0 {
              assert missing[0] in absent;
            }
          }
          if |missing| > 0 {
            if st.phase != Provisioning || st.message != WaitingForAcks {
              st := st.(phase := Provisioning, message := WaitingForAcks);
              updated := true;
            }
            return st, updated, REQUEUE_SECONDS;
          }
          if st.phase != Ready || st.message != GatewayReady {
            st := st.(phase := Ready, message := GatewayReady);
            updated := true;
          }
        }
      }
      if env.vip.Vip? {
        if env.vip.ip != "" {
          var endpoint := JoinHostPort(env.vip.ip, Itoa(st.port as int));
          if st.endpoint != endpoint {
            st := st.(endpoint := endpoint);
            updated := true;
          }
        }
      } else {
        requeue := REQUEUE_SECONDS;
      }
    }

    method EvaluatePodPhase(key: Key, status: Status, pod: Pod, env: Env) returns (st: Status, updated: bool, requeue: nat)
      ensures Evaluated(st, requeue) == Reconciler.EvaluatePodPhase(key, status, Seeing(pod, env))
      ensures updated <==> st != status
    {
      st, updated, requeue := status, false, 0;
      if pod.phase == PodFailed {
        if st.phase != Failed {
          st := st.(phase := Failed, message := GatewayPodFailed);
          updated := true;
        }
      } else if pod.phase == PodSucceeded {
        if st.phase != Terminated {
          st := st.(phase := Terminated, message := GatewayTerminated);
          updated := true;
        }
      } else if IsPodReady(pod.conditions) {
        st, updated, requeue := HandleReadyPod(key, status, pod, env);
      } else if st.phase != Provisioning || st.message != GatewayPodStarting {
        st := st.(phase := Provisioning, message := GatewayPodStarting);
        updated := true;
      }
    }

    /** Offers a complete mapping, or a deletion, to every stream. */
    method NotifyTunnelUpdate(key: Key, st: Status, kind: UpdateKind) returns (ghost us: seq<Update>)
      modifies server.streams
      ensures us == TunnelUpdate(key, st, kind)
      ensures server.View() == NotifyAll(old(server.View()), us)
    {
      us := TunnelUpdate(key, st, kind);
      if st.port <= 0 {
        return;
      }
      if kind != Deleted && (st.podIp == "" || st.publicKey == "") {
        return;
      }
      server.NotifyUpdate(Update(kind, MappingOf(key, st)));
      assert us[1..] == [];
    }

    method DeleteGatewayResources(key: Key, env: Env) returns (ok: bool)
      modifies api`pods
      ensures (api.pods, ok) == Reconciler.DeleteGatewayResources(old(api.pods), key, env)
    {
      if !env.podDeleteOk {
        return false;
      }
      api.pods := api.pods - {key};
      return env.policyDeleteOk;
    }

    method HandleDeletion(key: Key, env: Env) returns (err: bool, ghost us: seq<Update>)
      requires allocator.Valid() && key in api.tunnels
      modifies api, allocator, server.streams
      ensures allocator.Valid()
      ensures Result(View(), us, err, 0) == Reconciler.HandleDeletion(old(View()), key, env)
    {
      us := [];
      var tunnel := api.tunnels[key];
      if !tunnel.finalizer {
        allocator.Release(key);
        return false, us;
      }
      var deleted := DeleteGatewayResources(key, env);
      if !deleted || !env.updateOk {
        return true, us;
      }
      api.tunnels := api.tunnels - {key};
      assert server.View() == old(server.View());
      us := ReleaseAndAnnounce(key, tunnel.status);
      return false, us;
    }

    /** Gives the port back and announces that the tunnel is gone. */
    method ReleaseAndAnnounce(key: Key, st: Status) returns (ghost us: seq<Update>)
      requires allocator.Valid()
      modifies allocator, server.streams
      ensures allocator.Valid() && allocator.View() == old(allocator.View()).Release(key)
      ensures us == TunnelUpdate(key, st, Deleted)
      ensures server.View() == NotifyAll(old(server.View()), us)
    {
      allocator.Release(key);
      assert server.View() == old(server.View());
      us := NotifyTunnelUpdate(key, st, Deleted);
    }

    method HandleTerminated(key: Key, env: Env) returns (err: bool, ghost us: seq<Update>)
      requires allocator.Valid() && key in api.tunnels
      modifies api, allocator, server.streams
      ensures allocator.Valid()
      ensures Result(View(), us, err, 0) == Reconciler.HandleTerminated(old(View()), key, env)
    {
      us := [];
      var tunnel := api.tunnels[key];
      var deleted := DeleteGatewayResources(key, env);
      if !deleted {
        return true, us;
      }
      var updated := RemoveFinalizer(key, env);
      if !updated {
        return true, us;
      }
      assert server.View() == old(server.View());
      us := FinishCleanUp(key, tunnel.status, env.finalDeleteOk);
      assert env.finalDeleteOk ==> api.tunnels == old(api.tunnels) - {key};
      return !env.finalDeleteOk, us;
    }

    /** The last calls for a terminated tunnel: its port, the announcement, the object. */
    method FinishCleanUp(key: Key, st: Status, deleteOk: bool) returns (ghost us: seq<Update>)
      requires allocator.Valid()
      modifies api`tunnels, allocator, server.streams
      ensures allocator.Valid() && allocator.View() == old(allocator.View()).Release(key)
      ensures us == TunnelUpdate(key, st, Deleted)
      ensures server.View() == NotifyAll(old(server.View()), us)
      ensures api.tunnels == if deleteOk then old(api.tunnels) - {key} else old(api.tunnels)
    {
      us := ReleaseAndAnnounce(key, st);
      if deleteOk {
        api.tunnels := api.tunnels - {key};
      }
    }

    /** Drops the finalizer of a terminated tunnel, if it has one. */
    method RemoveFinalizer(key: Key, env: Env) returns (ok: bool)
      requires key in api.tunnels
      modifies api`tunnels
      ensures ok <==> !(old(api.tunnels[key].finalizer) && !env.updateOk)
      ensures api.tunnels == if ok then old(api.tunnels)[key := old(api.tunnels[key]).(finalizer := false)] else old(api.tunnels)
    {
      var tunnel := api.tunnels[key];
      if tunnel.finalizer {
        if !env.updateOk {
          return false;
        }
        api.tunnels := api.tunnels[key := tunnel.(finalizer := false)];
      }
      assert api.tunnels == old(api.tunnels)[key := tunnel.(finalizer := false)];
      return true;
    }

    /** The gateway pod, created if it is missing. */
    method EnsureGatewayPod(key: Key, env: Env) returns (pod: Option<Pod>)
      modifies api`pods
      ensures (api.pods, pod) == Reconciler.EnsureGatewayPod(old(api.pods), key, env)
    {
      if !env.podGetOk {
        return None;
      }
      if key in api.pods {
        return Some(api.pods[key]);
      }
      if !env.podCreateOk {
        return None;
      }
      var created := NewPod(env);
      api.pods := api.pods[key := created];
      return Some(created);
    }

    /** Finalizer, pod, network policy and port, up to the first failure. */
    method SetUpGateway(key: Key, env: Env) returns (setup: Setup)
      requires allocator.Valid() && key in api.tunnels
      modifies api, allocator
      ensures allocator.Valid()
      ensures (View(), setup) == Prepare(old(View()), key, env)
      ensures key in api.tunnels && api.tunnels[key].status == old(api.tunnels[key].status)
    {
      if !env.targetValid {
        return NotReady;
      }
      var tunnel := api.tunnels[key];
      if !tunnel.finalizer {
        if !env.updateOk {
          return NotReady;
        }
      }
      api.tunnels := api.tunnels[key := tunnel.(finalizer := true)];
      assert tunnel.finalizer ==> api.tunnels == old(api.tunnels);
      var pod := EnsureGatewayPod(key, env);
      if pod.None? || !env.policyOk {
        return NotReady;
      }
      if tunnel.status.port != 0 {
        return SetUp(pod.value, tunnel.status.port);
      }
      var port := allocator.Allocate(key, env.start % ((allocator.maxPort - allocator.minPort) as int + 1));
      if port.None? {
        return NotReady;
      }
      return SetUp(pod.value, port.value);
    }

    /** Records port, pod identity and address in the status; any change takes the
        next revision, and a new pod drops the gateway key. */
    method RecordMapping(key: Key, status: Status, pod: Pod, port: int32) returns (st: Status, mappingChanged: bool)
      requires port != 0
      ensures st == RefreshMapping(key, status, pod, port)
      ensures mappingChanged <==> MappingChanged(key, status, pod)
      ensures mappingChanged <==> st != status
    {
      st, mappingChanged := status, false;
      if st.port == 0 {
        st := st.(port := port);
        mappingChanged := true;
      }
      if st.podName != GatewayResourceName(key.name) {
        st := st.(podName := GatewayResourceName(key.name));
        mappingChanged := true;
      }
      if st.podUid != pod.uid {
        st := st.(podUid := pod.uid, publicKey := "");
        mappingChanged := true;
      }
      if st.podIp != pod.ip {
        st := st.(podIp := pod.ip);
        mappingChanged := true;
      }
      if mappingChanged {
        st := st.(revision := st.revision + 1);
      }
    }

    /** Publishes a changed mapping, and a current one again while it is not ready. */
    method PublishStatus(key: Key, before: Status, pod: Pod, st: Status, mappingChanged: bool) returns (ghost us: seq<Update>)
      requires mappingChanged <==> MappingChanged(key, before, pod)
      modifies server.streams
      ensures us == Published(key, before, pod, st)
      ensures server.View() == NotifyAll(old(server.View()), us)
    {
      us := [];
      if mappingChanged {
        us := NotifyTunnelUpdate(key, st, if before.port == 0 then Added else Modified);
      }
      if st.podIp != "" && st.publicKey != "" && st.phase != Ready && st.revision > 0 {
        ghost var again := NotifyTunnelUpdate(key, st, Modified);
        NotifyAllConcat(old(server.View()), us, again);
        us := us + again;
      }
    }

    /** The status the tunnel ends up with, and what about it changed. */
    method EvaluateStatus(key: Key, status: Status, pod: Pod, port: int32, env: Env)
      returns (st: Status, mappingChanged: bool, updated: bool, requeue: nat)
      requires port != 0
      ensures Evaluated(st, requeue) == Observe(key, status, port, Seeing(pod, env))
      ensures mappingChanged <==> MappingChanged(key, status, pod)
      ensures updated <==> st != status
    {
      var recorded, phaseUpdated;
      recorded, mappingChanged := RecordMapping(key, status, pod, port);
      st, phaseUpdated, requeue := EvaluatePodPhase(key, recorded, pod, env);
      updated := mappingChanged || phaseUpdated;
      assert st.revision == recorded.revision;
    }

    /** Persists a changed status, and publishes only then. */
    method StoreStatus(key: Key, pod: Pod, st: Status, mappingChanged: bool, updated: bool, patchOk: bool)
      returns (err: bool, ghost us: seq<Update>)
      requires key in api.tunnels
      requires mappingChanged <==> MappingChanged(key, api.tunnels[key].status, pod)
      requires updated <==> st != api.tunnels[key].status
      modifies api`tunnels, server.streams
      ensures err <==> updated && !patchOk
      ensures us == if err then [] else Published(key, old(api.tunnels[key].status), pod, st)
      ensures api.tunnels == if err then old(api.tunnels) else old(api.tunnels)[key := old(api.tunnels[key]).(status := st)]
      ensures server.View() == NotifyAll(old(server.View()), us)
    {
      var tunnel := api.tunnels[key];
      if updated {
        if !patchOk {
          return true, [];
        }
        api.tunnels := api.tunnels[key := tunnel.(status := st)];
      }
      us := PublishStatus(key, tunnel.status, pod, st, mappingChanged);
      return false, us;
    }

    /** Evaluates the status, persists it if it changed, and publishes what changed. */
    method UpdateStatus(key: Key, pod: Pod, port: int32, env: Env) returns (err: bool, requeue: nat, ghost us: seq<Update>)
      requires key in api.tunnels && port != 0
      modifies api`tunnels, server.streams
      ensures Result(View(), us, err, requeue) == Commit(old(View()), key, pod, port, env)
    {
      ghost var op := View();
      assert Seeing(pod, env) == SeenBy(op, pod, env);
      var st, mappingChanged, updated, after := EvaluateStatus(key, api.tunnels[key].status, pod, port, env);
      err, us := StoreStatus(key, pod, st, mappingChanged, updated, env.patchOk);
      requeue := if err then 0 else after;
      if err {
        assert View() == op;
      } else {
        assert View() == Reconciler.Publish(op.(tunnels := op.tunnels[key := op.tunnels[key].(status := st)]), us);
      }
    }

    /** One reconcile request. */
    method Reconcile(key: Key, env: Env) returns (err: bool, requeue: nat, ghost us: seq<Update>)
      requires allocator.Valid()
      modifies api, allocator, server.streams
      ensures allocator.Valid()
      ensures Result(View(), us, err, requeue) == Reconciler.Reconcile(old(View()), key, env)
    {
      us := [];
      if !env.readOk {
        return true, 0, us;
      }
      if key !in api.tunnels {
        return false, 0, us;
      }
      var tunnel := api.tunnels[key];
      if tunnel.deleting {
        err, us := HandleDeletion(key, env);
        return err, 0, us;
      }
      if tunnel.status.phase == Terminated {
        err, us := HandleTerminated(key, env);
        return err, 0, us;
      }
      var setup := SetUpGateway(key, env);
      if setup.NotReady? {
        return true, 0, us;
      }
      err, requeue, us := UpdateStatus(key, setup.pod, setup.port, env);
    }
  }
}
