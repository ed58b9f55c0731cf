/** What the guarantees assume of the environment, and what happens without it. */
module Assumptions {
  import opened TunnelTypes
  import opened PortAlloc
  import opened Reconciler
  import opened PortSafety

  // ---------------------------------------------------------------- the last delete

  /** The reconcile cleans up a terminated tunnel that has a port, and only its last
      call, the delete of the object itself, fails. */
  predicate LastDeleteFails(op: Operator<nat>, k: Key, env: Env) {
    && CleansUp(op, k) && op.tunnels[k].status.port != 0
    && env.readOk && env.podDeleteOk && env.policyDeleteOk && env.updateOk && !env.finalDeleteOk
  }

  /** A reconcile keeps what is promised of the ports exactly unless that last delete
      fails for a tunnel whose port is in the range. */
  lemma ReconcileKeepsPortsIff(op: Operator<nat>, k: Key, env: Env)
    requires PortsOk(op)
    ensures var op' := Reconciler.Reconcile(op, k, env).op;
            Promised(op'.tunnels, op'.alloc) <==> !(LastDeleteFails(op, k, env) && op.alloc.InRange(op.tunnels[k].status.port))
  {
    if CleansUp(op, k) && !env.finalDeleteOk {
      CleanUpKeepsPortsIff(op, k, env);
    } else {
      ReconcileKeepsPorts(op, k, env);
    }
  }

  lemma CleanUpKeepsPortsIff(op: Operator<nat>, k: Key, env: Env)
    requires PortsOk(op) && CleansUp(op, k) && !env.finalDeleteOk
    ensures var op' := Reconciler.Reconcile(op, k, env).op;
            Promised(op'.tunnels, op'.alloc) <==> !(LastDeleteFails(op, k, env) && op.alloc.InRange(op.tunnels[k].status.port))
  {
    var t := op.tunnels[k];
    assert TunnelOk(t) && PortHeld(t.status.port, op.alloc, k);
    if env.readOk && env.podDeleteOk && env.policyDeleteOk && (t.finalizer ==> env.updateOk) {
      ReleasedWhileStored(op.tunnels, op.alloc, k);
    }
  }

  /** A tunnel that loses its allocation and its finalizer but stays stored breaks the
      promise exactly if its port is in the range. */
  lemma ReleasedWhileStored(tunnels: map<Key, Tunnel>, alloc: Alloc, k: Key)
    requires Safe(tunnels, alloc) && k in tunnels
    ensures Promised(tunnels[k := tunnels[k].(finalizer := false)], alloc.Release(k))
       <==> !(tunnels[k].status.port != 0 && alloc.InRange(tunnels[k].status.port))
  {
    var tunnels' := tunnels[k := tunnels[k].(finalizer := false)];
    var p, alloc' := tunnels[k].status.port, alloc.Release(k);
    forall i, j
      ensures Apart(tunnels', i, j)
    {
      assert Apart(tunnels, i, j);
    }
    assert p != 0 && alloc.InRange(p) ==> !PortHeld(tunnels'[k].status.port, alloc', k);
    forall j | j in tunnels' && j != k
      ensures PortHeld(tunnels'[j].status.port, alloc', j)
    {
      assert PortHeld(tunnels[j].status.port, alloc, j);
    }
  }

  /** What follows: the port is free again while the object still names it, so
      another tunnel can get it, and the next try to clean up publishes a deletion
      that takes down the other tunnel's mapping. */
  lemma FailedLastDeleteHitsNeighbour(op: Operator<nat>, k: Key, other: Key, env: Env)
    requires PortsOk(op) && LastDeleteFails(op, k, env) && k != other
    requires op.alloc.InRange(op.tunnels[k].status.port)
    requires other !in op.alloc.allocations
    ensures var r := Reconciler.Reconcile(op, k, env);
            && r.op.alloc.Valid()
            && k in r.op.tunnels && r.op.tunnels[k].status == op.tunnels[k].status
            && (exists start :: 0 <= start < r.op.alloc.RangeSize()
                                && r.op.alloc.Allocate(other, start).1 == Some(op.tunnels[k].status.port))
            && Reconciler.Reconcile(r.op, k, env.(finalDeleteOk := true)).published
               == [Update(Deleted, MappingOf(k, op.tunnels[k].status))]
  {
    var p := op.tunnels[k].status.port;
    var r := Reconciler.Reconcile(op, k, env);
    assert TunnelOk(op.tunnels[k]);
    assert PortHeld(p, op.alloc, k);
    FreePortCanBeDrawn(r.op.alloc, other, p);
  }

  /** Any free port of the range is handed out for some random start. */
  lemma FreePortCanBeDrawn(a: Alloc, k: Key, p: int32)
    requires a.Valid() && a.InRange(p) && p !in a.used && k !in a.allocations
    ensures exists start :: 0 <= start < a.RangeSize() && a.Allocate(k, start).1 == Some(p)
  {
    var start := p as int - a.minPort as int;
    ProbeAtStart(a, start, p);
    assert a.Allocate(k, start).1 == Some(p);
  }

  lemma ProbeAtStart(a: Alloc, start: int, p: int32)
    requires a.Valid() && a.InRange(p) && start == p as int - a.minPort as int
    ensures 0 <= start < a.RangeSize() && a.Probe(start, 0) == p
  {
    WrapOnce(start, a.RangeSize());
  }

  // ---------------------------------------------------------------- listing at restart

  /** Starting with nothing restored, because the listing failed, is safe exactly when
      no stored tunnel has a port in the range. */
  lemma RestartWithoutListingIff(op: Operator<nat>, minPort: int32, maxPort: int32)
    requires PortsOk(op)
    ensures var a := NewAlloc(minPort, maxPort);
            Promised(op.tunnels, a)
            <==> forall k :: k in op.tunnels ==> op.tunnels[k].status.port == 0 || !a.InRange(op.tunnels[k].status.port)
  {
    var a := NewAlloc(minPort, maxPort);
    forall k | k in op.tunnels
      ensures PortHeld(op.tunnels[k].status.port, a, k) <==> op.tunnels[k].status.port == 0 || !a.InRange(op.tunnels[k].status.port)
    {
    }
  }

  /** Otherwise a persisted port can be given to a second tunnel. */
  lemma RestartWithoutListingDuplicates(op: Operator<nat>, minPort: int32, maxPort: int32, k: Key, other: Key)
    requires k in op.tunnels && NewAlloc(minPort, maxPort).InRange(op.tunnels[k].status.port)
    ensures var a := NewAlloc(minPort, maxPort);
            exists start :: 0 <= start < a.RangeSize() && a.Allocate(other, start).1 == Some(op.tunnels[k].status.port)
  {
    FreePortCanBeDrawn(NewAlloc(minPort, maxPort), other, op.tunnels[k].status.port);
  }

  // ---------------------------------------------------------------- loading what was listed before

  /** Loading the claim of a tunnel listed earlier does no harm: the tunnel is still stored,
      the port is out of range, or another tunnel has it by now. */
  predicate LoadsSafely(tunnels: map<Key, Tunnel>, alloc: Alloc, c: Claim) {
    c.key in tunnels || !alloc.InRange(c.port) || alloc.Taken(c.key, c.port)
  }

  /** Claims come from an earlier listing; a stored tunnel still has the port it was listed with. */
  predicate ListedEarlier(tunnels: map<Key, Tunnel>, claims: seq<Claim>) {
    forall i :: 0 <= i < |claims| && claims[i].key in tunnels ==> tunnels[claims[i].key].status.port == claims[i].port
  }

  lemma SafeLoadIsNoop(tunnels: map<Key, Tunnel>, alloc: Alloc, c: Claim)
    requires Safe(tunnels, alloc) && LoadsSafely(tunnels, alloc, c)
    requires c.key in tunnels ==> tunnels[c.key].status.port == c.port
    ensures alloc.LoadExisting(c.key, c.port) == alloc
  {
    if c.key in tunnels && alloc.InRange(c.port) {
      assert PortHeld(tunnels[c.key].status.port, alloc, c.key);
      LoadHeldIsNoop(alloc, c.key, c.port);
    }
  }

  /** Some allocated key is not stored. */
  ghost predicate Leaks(tunnels: map<Key, Tunnel>, alloc: Alloc) {
    exists k :: k in alloc.allocations && k !in tunnels
  }

  /** Either every claim loads safely and the allocator is as it was, or a port leaks. */
  lemma {:induction false} LateLoads(tunnels: map<Key, Tunnel>, alloc: Alloc, claims: seq<Claim>)
    requires Safe(tunnels, alloc) && ListedEarlier(tunnels, claims)
    ensures if forall i :: 0 <= i < |claims| ==> LoadsSafely(tunnels, alloc, claims[i])
            then LoadAll(alloc, claims) == alloc
            else Leaks(tunnels, LoadAll(alloc, claims))
    decreases |claims|
  {
    if claims != [] {
      var n := |claims| - 1;
      var before, c := claims[..n], claims[n];
      LateLoads(tunnels, alloc, before);
      assert forall i :: 0 <= i < n ==> before[i] == claims[i];
      var mid := LoadAll(alloc, before);
      if forall i :: 0 <= i < n ==> LoadsSafely(tunnels, alloc, before[i]) {
        if LoadsSafely(tunnels, alloc, c) {
          SafeLoadIsNoop(tunnels, alloc, c);
        } else {
          assert alloc.LoadExisting(c.key, c.port).Holds(c.key, c.port);
        }
      } else {
        var k :| k in mid.allocations && k !in tunnels;
        assert k in mid.LoadExisting(c.key, c.port).allocations;
      }
    }
  }

  /** A snapshot request that lists the tunnels first and loads their ports later keeps what
      is promised of the ports exactly if every listed tunnel is still stored when it is
      loaded, or its port is out of range or taken by then. */
  lemma LateLoadsKeepPortsIff(tunnels: map<Key, Tunnel>, alloc: Alloc, claims: seq<Claim>)
    requires Safe(tunnels, alloc) && ListedEarlier(tunnels, claims)
    ensures Promised(tunnels, LoadAll(alloc, claims))
       <==> forall i :: 0 <= i < |claims| ==> LoadsSafely(tunnels, alloc, claims[i])
  {
    LateLoads(tunnels, alloc, claims);
  }

  /** A tunnel that is listed, then deleted, and only then loaded leaves its port allocated to
      a key that is not stored. */
  lemma LateLoadLeaks(op: Operator<nat>, k: Key, env: Env)
    requires PortsOk(op) && k in op.tunnels && op.tunnels[k].deleting
    requires op.tunnels[k].status.port != 0 && op.alloc.InRange(op.tunnels[k].status.port)
    requires env.readOk && env.podDeleteOk && env.policyDeleteOk && env.updateOk
    ensures var op' := Reconciler.Reconcile(op, k, env).op;
            && PortsOk(op') && k !in op'.tunnels
            && op'.alloc.LoadExisting(k, op.tunnels[k].status.port).Holds(k, op.tunnels[k].status.port)
  {
    var p := op.tunnels[k].status.port;
    ReconcileKeepsPorts(op, k, env);
    assert TunnelOk(op.tunnels[k]) && PortHeld(p, op.alloc, k);
    assert p !in op.alloc.Release(k).used;
  }

  // ---------------------------------------------------------------- a lost answer

  /** If the update that drops the finalizer takes effect but reports an error, the object is
      gone and nothing was released: what is promised of the ports holds exactly if the
      tunnel had no allocation. */
  lemma LostFinalizerUpdateIff(tunnels: map<Key, Tunnel>, alloc: Alloc, k: Key)
    requires Safe(tunnels, alloc)
    ensures Promised(tunnels - {k}, alloc) <==> k !in alloc.allocations
  {
    var tunnels' := tunnels - {k};
    forall i, j
      ensures Apart(tunnels', i, j)
    {
      assert Apart(tunnels, i, j);
    }
    assert forall j :: j in tunnels ==> PortHeld(tunnels[j].status.port, alloc, j);
  }
}
