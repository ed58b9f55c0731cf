/** Port safety over whole runs: no two stored tunnels have the same forwarder
    port, whatever restarts, range changes, failed calls and deletions happen in
    between, and the allocator holds ports of stored tunnels only. */
module PortSafety {
  import opened TunnelTypes
  import opened PortAlloc
  import opened ForwarderService
  import opened Reconciler
  import opened ReconcileFacts
  import opened Protocol

  /** A tunnel with a port has the finalizer and at least one revision. */
  ghost predicate TunnelOk(t: Tunnel) {
    && 0 <= t.status.port && 0 <= t.status.revision
    && (t.status.port != 0 ==> t.finalizer && t.status.revision >= 1)
    && (t.deleting ==> t.finalizer)
  }

  ghost predicate TunnelsOk(tunnels: map<Key, Tunnel>) {
    forall k :: k in tunnels ==> TunnelOk(tunnels[k])
  }

  ghost predicate Apart(tunnels: map<Key, Tunnel>, j: Key, k: Key) {
    j in tunnels && k in tunnels && j != k && tunnels[j].status.port != 0
    ==> tunnels[j].status.port != tunnels[k].status.port
  }

  /** Different tunnels have different ports. */
  ghost predicate DistinctTunnelPorts(tunnels: map<Key, Tunnel>) {
    forall j, k :: Apart(tunnels, j, k)
  }

  /** Persisted in-range ports are allocated to their tunnel. */
  ghost predicate PersistedHeld(tunnels: map<Key, Tunnel>, alloc: Alloc) {
    forall k :: k in tunnels ==> PortHeld(tunnels[k].status.port, alloc, k)
  }

  ghost predicate PortHeld(port: int32, alloc: Alloc, k: Key) {
    port != 0 && alloc.InRange(port) ==> alloc.Holds(k, port)
  }

  /** Allocated ports belong to stored tunnels that will release them. */
  ghost predicate NoLeak(tunnels: map<Key, Tunnel>, alloc: Alloc) {
    forall k :: k in alloc.allocations ==> k in tunnels && WillRelease(tunnels[k], alloc.allocations[k])
  }

  ghost predicate WillRelease(t: Tunnel, port: int32) {
    t.finalizer && (t.status.port == 0 || t.status.port == port)
  }

  /** What is promised of the ports: no two tunnels share one, persisted ports are
      allocated, and allocations belong to stored tunnels. */
  ghost predicate Promised(tunnels: map<Key, Tunnel>, alloc: Alloc) {
    && alloc.Valid()
    && DistinctTunnelPorts(tunnels)
    && PersistedHeld(tunnels, alloc)
    && NoLeak(tunnels, alloc)
  }

  ghost predicate Safe(tunnels: map<Key, Tunnel>, alloc: Alloc) {
    TunnelsOk(tunnels) && Promised(tunnels, alloc)
  }

  ghost predicate PortsOk(op: Operator<nat>) {
    Safe(op.tunnels, op.alloc)
  }

  // ---------------------------------------------------------------- one tunnel at a time

  /** Storing a tunnel whose port nobody else has and the allocator knows is safe. */
  lemma SetTunnelSafe(tunnels: map<Key, Tunnel>, alloc: Alloc, k: Key, t: Tunnel)
    requires Safe(tunnels, alloc)
    requires TunnelOk(t)
    requires t.status.port != 0 ==> forall j :: j in tunnels && j != k ==> tunnels[j].status.port != t.status.port
    requires PortHeld(t.status.port, alloc, k)
    requires k in alloc.allocations ==> WillRelease(t, alloc.allocations[k])
    ensures Safe(tunnels[k := t], alloc)
  {
    var tunnels' := tunnels[k := t];
    forall i, j
      ensures Apart(tunnels', i, j)
    {
      assert Apart(tunnels, i, j);
    }
  }

  /** A stored tunnel may take any status with the same port. */
  lemma SamePortSafe(tunnels: map<Key, Tunnel>, alloc: Alloc, k: Key, t: Tunnel)
    requires Safe(tunnels, alloc)
    requires k in tunnels && t.status.port == tunnels[k].status.port && TunnelOk(t) && (tunnels[k].finalizer ==> t.finalizer)
    ensures Safe(tunnels[k := t], alloc)
  {
    assert forall j :: j in tunnels && j != k ==> Apart(tunnels, k, j);
    SetTunnelSafe(tunnels, alloc, k, t);
  }

  lemma RemoveTunnelSafe(tunnels: map<Key, Tunnel>, alloc: Alloc, k: Key)
    requires Safe(tunnels, alloc)
    ensures Safe(tunnels - {k}, alloc.Release(k))
  {
    var tunnels' := tunnels - {k};
    forall i, j
      ensures Apart(tunnels', i, j)
    {
      assert Apart(tunnels, i, j);
    }
  }

  lemma AllocateSafe(tunnels: map<Key, Tunnel>, a: Alloc, k: Key, start: int)
    requires Safe(tunnels, a) && 0 <= start < a.RangeSize()
    requires k in tunnels && tunnels[k].finalizer && tunnels[k].status.port == 0
    ensures var (a', r) := a.Allocate(k, start);
            && Safe(tunnels, a')
            && (r.Some? ==> r.value > 0 && a'.Holds(k, r.value)
                            && forall j :: j in tunnels && j != k ==> tunnels[j].status.port != r.value)
  {
    var (a', r) := a.Allocate(k, start);
    assert a'.minPort == a.minPort && a'.maxPort == a.maxPort;
    forall j | j in tunnels && j != k
      ensures PortHeld(tunnels[j].status.port, a', j)
      ensures r.Some? ==> tunnels[j].status.port != r.value
    {
      assert PortHeld(tunnels[j].status.port, a, j);
      if r.Some? {
        assert a'.Holds(k, r.value) && a'.used[r.value] == k;
        assert !a'.Holds(j, r.value);
      }
    }
  }

  // ---------------------------------------------------------------- reconcile

  lemma LiveKeepsPorts(op: Operator<nat>, k: Key, env: Env)
    requires PortsOk(op) && k in op.tunnels
    ensures PortsOk(ReconcileLive(op, k, env).op)
  {
    var (op', setup) := Prepare(op, k, env);
    PrepareFacts(op, k, env);
    var t := op.tunnels[k];
    SamePortSafe(op.tunnels, op.alloc, k, t.(finalizer := true));
    if setup.SetUp? {
      if t.status.port == 0 {
        AllocateSafe(op'.tunnels, op.alloc, k, env.start % op.alloc.RangeSize());
      }
      CommitKeepsPorts(op', k, setup.pod, setup.port, env);
    }
  }

  lemma CommitKeepsPorts(op: Operator<nat>, k: Key, pod: Pod, port: int32, env: Env)
    requires PortsOk(op) && k in op.tunnels && op.tunnels[k].finalizer
    requires port > 0
    requires op.tunnels[k].status.port == port
             || (op.tunnels[k].status.port == 0 && op.alloc.Holds(k, port)
                 && forall j :: j in op.tunnels && j != k ==> op.tunnels[j].status.port != port)
    ensures PortsOk(Commit(op, k, pod, port, env).op)
  {
    CommitFacts(op, k, pod, port, env);
    var st := op.tunnels[k].status;
    RevisionStep(k, st, port, SeenBy(op, pod, env));
    var t' := op.tunnels[k].(status := Observe(k, st, port, SeenBy(op, pod, env)).status);
    if st.port == port {
      SamePortSafe(op.tunnels, op.alloc, k, t');
    } else {
      SetTunnelSafe(op.tunnels, op.alloc, k, t');
    }
  }

  lemma ReconcileKeepsPorts(op: Operator<nat>, k: Key, env: Env)
    requires PortsOk(op)
    requires CleansUp(op, k) ==> env.finalDeleteOk
    ensures PortsOk(Reconciler.Reconcile(op, k, env).op)
  {
    if env.readOk && k in op.tunnels {
      if op.tunnels[k].deleting || op.tunnels[k].status.phase == Terminated {
        RemoveTunnelSafe(op.tunnels, op.alloc, k);
      } else {
        LiveKeepsPorts(op, k, env);
      }
    }
  }

  // ---------------------------------------------------------------- restarts and snapshots

  /** A restart with any range rebuilds the allocator from the stored tunnels. */
  lemma RestartKeepsPorts(op: Operator<nat>, minPort: int32, maxPort: int32, order: seq<Key>)
    requires PortsOk(op) && Lists(op.tunnels, order)
    ensures PortsOk(op.(alloc := LoadAll(NewAlloc(minPort, maxPort), Claims(op.tunnels, order))))
  {
    var claims := Claims(op.tunnels, order);
    ClaimsDistinct(op.tunnels, order);
    RecoveryRebuilds(minPort, maxPort, claims);
    var a := LoadAll(NewAlloc(minPort, maxPort), claims);
    forall k | k in op.tunnels
      ensures PortHeld(op.tunnels[k].status.port, a, k)
    {
      assert k in order;
      var i :| 0 <= i < |order| && order[i] == k;
      assert claims[i] == Claim(k, op.tunnels[k].status.port);
    }
    forall k | k in a.allocations
      ensures k in op.tunnels && WillRelease(op.tunnels[k], a.allocations[k])
    {
      assert a.Holds(k, a.allocations[k]);
      assert Claim(k, a.allocations[k]) in claims;
      var i :| 0 <= i < |claims| && claims[i] == Claim(k, a.allocations[k]);
      assert order[i] == k;
    }
  }

  lemma ClaimsDistinct(tunnels: map<Key, Tunnel>, order: seq<Key>)
    requires Lists(tunnels, order) && TunnelsOk(tunnels) && DistinctTunnelPorts(tunnels)
    ensures DistinctKeys(Claims(tunnels, order)) && DistinctPorts(Claims(tunnels, order))
  {
    var claims := Claims(tunnels, order);
    forall i, j | 0 <= i < j < |claims| && claims[i].port > 0
      ensures claims[i].port != claims[j].port
    {
      assert Apart(tunnels, order[i], order[j]);
    }
  }

  /** Answering a snapshot request leaves a sound allocator as it is. */
  lemma {:induction false} SnapshotLoadsNothing(op: Operator<nat>, items: seq<Item>)
    requires PortsOk(op)
    requires forall i :: 0 <= i < |items| ==> items[i].key in op.tunnels && items[i].tunnel == op.tunnels[items[i].key]
    ensures LoadAll(op.alloc, EligibleClaims(items)) == op.alloc
    decreases |items|
  {
    if items != [] {
      var n := |items| - 1;
      SnapshotLoadsNothing(op, items[..n]);
      var before, last := EligibleClaims(items[..n]), items[n];
      if Eligible(last.tunnel) {
        var c := Claim(last.key, last.tunnel.status.port);
        assert (before + [c])[..|before|] == before;
        LoadHeldIsNoop(op.alloc, c.key, c.port);
      }
    }
  }

  lemma FetchKeepsAlloc(op: Operator<nat>, order: seq<Key>)
    requires PortsOk(op) && Lists(op.tunnels, order)
    ensures LoadListed(op, order) == op
  {
    SnapshotLoadsNothing(op, Items(op.tunnels, order));
  }

  // ---------------------------------------------------------------- runs

  lemma DeleteKeepsPorts(s: State, k: Key)
    requires PortsOk(s.op) && k in s.op.tunnels
    ensures PortsOk(DoDelete(s, k).op)
  {
    var t := s.op.tunnels[k];
    if t.finalizer {
      SamePortSafe(s.op.tunnels, s.op.alloc, k, t.(deleting := true));
    } else {
      RemoveTunnelSafe(s.op.tunnels, s.op.alloc, k);
    }
  }
}
