/** Persist before publish, over whole runs: everything a forwarder can learn about
    a stored tunnel is at most as recent as the stored status, and agrees with it
    when it is as recent. */
module Exposure {
  import opened TunnelTypes
  import opened ForwarderService
  import opened ForwarderClient
  import opened Reconciler
  import opened ReconcileFacts
  import opened Protocol

  /** The mapping is no newer than the status; at the same revision it has the
      same address, and the status is complete. */
  ghost predicate Behind(m: Mapping, st: Status) {
    && m.port == st.port
    && m.revision <= st.revision
    && (m.revision == st.revision ==> m == MappingOf(m.key, st) && st.podIp != "" && st.publicKey != "")
  }

  ghost predicate Known(m: Mapping, tunnels: map<Key, Tunnel>, retired: set<Key>) {
    && m.port > 0 && !Blank(m.gateway)
    && (m.key in tunnels ==> Behind(m, tunnels[m.key].status))
    && (m.key in tunnels || m.key in retired)
  }

  /** A tunnel recorded as failed with a gateway key stays so while its pod exists:
      that pod has failed. */
  ghost predicate FailureRecorded(st: Status, pods: map<Key, Pod>, k: Key) {
    st.phase == Failed && st.publicKey != "" && k in pods && pods[k].uid == st.podUid ==> pods[k].phase == PodFailed
  }

  ghost predicate Recorded(tunnels: map<Key, Tunnel>, pods: map<Key, Pod>) {
    forall k :: k in tunnels ==> FailureRecorded(tunnels[k].status, pods, k)
  }

  ghost predicate AllKnown(tunnels: map<Key, Tunnel>, retired: set<Key>, exposed: set<Mapping>) {
    && retired !! tunnels.Keys
    && forall m :: m in exposed ==> Known(m, tunnels, retired)
  }

  lemma GatewayNotBlank(ip: string)
    ensures !Blank(GatewayAddress(ip))
  {
    var g := GatewayAddress(ip);
    assert g[|g| - 1] == '0';
    assert !IsSpace(g[|g| - 1]);
  }

  // ---------------------------------------------------------------- reconcile

  lemma BehindStep(k: Key, m: Mapping, st: Status, port: int32, seen: Seen)
    requires Behind(m, st) && m.port > 0
    ensures Behind(m, Observe(k, st, port, seen).status)
  {
    RevisionStep(k, st, port, seen);
  }

  lemma FailureStep(k: Key, st: Status, port: int32, seen: Seen)
    requires st.phase == Failed && st.publicKey != "" && seen.pod.uid == st.podUid ==> seen.pod.phase == PodFailed
    ensures var st' := Observe(k, st, port, seen).status;
            st'.phase == Failed && st'.publicKey != "" ==> seen.pod.phase == PodFailed
  {
  }

  lemma EffectKeepsRecorded(op: Operator<nat>, op': Operator<nat>, us: seq<Update>, k: Key, env: Env)
    requires Effect(op, op', us, k, env) && Recorded(op.tunnels, op.pods)
    requires k in op.tunnels && k !in op.pods ==> env.newUid != op.tunnels[k].status.podUid
    ensures Recorded(op'.tunnels, op'.pods)
  {
    if k in op.tunnels {
      var st := op.tunnels[k].status;
      assert FailureRecorded(st, op.pods, k);
      if Stored(op, op', us, k, env) {
        FailureStep(k, st, op'.tunnels[k].status.port, SeenBy(op, op'.pods[k], env));
      }
    }
    forall j | j in op'.tunnels
      ensures FailureRecorded(op'.tunnels[j].status, op'.pods, j)
    {
      if j != k {
        assert FailureRecorded(op.tunnels[j].status, op.pods, j);
      }
    }
  }

  ghost function RetiredBy(op: Operator<nat>, op': Operator<nat>, k: Key, retired: set<Key>): set<Key> {
    if k in op.tunnels && k !in op'.tunnels then retired + {k} else retired
  }

  lemma EffectKeepsKnown(
    op: Operator<nat>, op': Operator<nat>, us: seq<Update>, k: Key, env: Env, retired: set<Key>, exposed: set<Mapping>)
    requires Effect(op, op', us, k, env) && AllKnown(op.tunnels, retired, exposed)
    ensures AllKnown(op'.tunnels, RetiredBy(op, op', k, retired), exposed + Exposing(us))
  {
    var retired' := RetiredBy(op, op', k, retired);
    forall m | m in exposed + Exposing(us)
      ensures Known(m, op'.tunnels, retired')
    {
      if m in exposed {
        assert Known(m, op.tunnels, retired);
        if m.key == k && Stored(op, op', us, k, env) {
          BehindStep(k, m, op.tunnels[k].status, op'.tunnels[k].status.port, SeenBy(op, op'.pods[k], env));
        }
      } else {
        var i :| 0 <= i < |us| && us[i].kind != Deleted && us[i].mapping == m;
        assert Stored(op, op', us, k, env);
        var st' := op'.tunnels[k].status;
        PublishedFacts(k, op.tunnels[k].status, op'.pods[k], st');
        GatewayNotBlank(st'.podIp);
        assert m == MappingOf(k, st');
      }
    }
  }

  // ---------------------------------------------------------------- created and deleted tunnels

  lemma AddKeepsKnown(tunnels: map<Key, Tunnel>, retired: set<Key>, exposed: set<Mapping>, k: Key, t: Tunnel)
    requires AllKnown(tunnels, retired, exposed) && k !in retired
    requires k in tunnels ==> t.status == tunnels[k].status
    ensures AllKnown(tunnels[k := t], retired, exposed)
  {
    forall m | m in exposed
      ensures Known(m, tunnels[k := t], retired)
    {
      assert Known(m, tunnels, retired);
    }
  }

  lemma RemoveKeepsKnown(tunnels: map<Key, Tunnel>, retired: set<Key>, exposed: set<Mapping>, k: Key)
    requires AllKnown(tunnels, retired, exposed)
    ensures AllKnown(tunnels - {k}, retired + {k}, exposed)
  {
    forall m | m in exposed
      ensures Known(m, tunnels - {k}, retired + {k})
    {
      assert Known(m, tunnels, retired);
    }
  }

  lemma SetKeepsRecorded(tunnels: map<Key, Tunnel>, pods: map<Key, Pod>, k: Key, t: Tunnel)
    requires Recorded(tunnels, pods) && FailureRecorded(t.status, pods, k)
    ensures Recorded(tunnels[k := t], pods) && Recorded(tunnels - {k}, pods)
  {
  }

  // ---------------------------------------------------------------- snapshots

  lemma SnapshotKnown(tunnels: map<Key, Tunnel>, retired: set<Key>, order: seq<Key>)
    requires Lists(tunnels, order)
    ensures forall m :: m in SnapshotOf(tunnels, order) <==>
                        m.key in tunnels && Eligible(tunnels[m.key]) && m == MappingOf(m.key, tunnels[m.key].status)
    ensures forall m :: m in SnapshotOf(tunnels, order) ==> Known(m, tunnels, retired)
  {
    var items := Items(tunnels, order);
    SnapshotContents(items);
    forall m
      ensures m in Snapshot(items) <==> m.key in tunnels && Eligible(tunnels[m.key]) && m == MappingOf(m.key, tunnels[m.key].status)
      ensures m in Snapshot(items) ==> Known(m, tunnels, retired)
    {
      if m in Snapshot(items) {
        var i :| 0 <= i < |items| && Eligible(items[i].tunnel) && m == MappingOf(items[i].key, items[i].tunnel.status);
        assert order[i] in tunnels;
        GatewayNotBlank(items[i].tunnel.status.podIp);
      }
      if m.key in tunnels && Eligible(tunnels[m.key]) && m == MappingOf(m.key, tunnels[m.key].status) {
        assert m.key in order;
        var i :| 0 <= i < |order| && order[i] == m.key;
        assert items[i] == Item(m.key, tunnels[m.key]);
      }
    }
  }
}
