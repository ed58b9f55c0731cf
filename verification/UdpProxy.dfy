/** The forwarder's port table: which port listens for which tunnel, and where it
    forwards. Updates replace an entry in revision order; a snapshot is applied
    in full before stale ports are closed. Whether the operating system grants a
    listening socket is an input. */
module UdpProxy {
  import opened TunnelTypes

  /** What a listener forwards to. */
  datatype Entry = Entry(key: Key, gateway: string, revision: int)

  type Table = map<int32, Entry>

  function EntryOf(m: Mapping): Entry {
    Entry(m.key, m.gateway, m.revision)
  }

  predicate ValidMapping(m: Mapping) {
    m.port > 0 && m.gateway != ""
  }

  function Lookup(t: Table, p: int32): Option<Entry> {
    if p in t then Some(t[p]) else None
  }

  /** The existing entry is a later revision of the same tunnel. */
  predicate Newer(e: Option<Entry>, m: Mapping) {
    e.Some? && e.value.key == m.key && e.value.revision > m.revision
  }

  /** Applying the mapping needs a new socket: the port is free, or it serves
      another tunnel, or another gateway at an older or equal revision. */
  predicate NeedsListen(e: Option<Entry>, m: Mapping) {
    !Newer(e, m) && !(e.Some? && e.value.key == m.key && e.value.gateway == m.gateway)
  }

  /** A port's entry after a mapping is applied, once its listen has succeeded. */
  function Merge(e: Option<Entry>, m: Mapping): Entry {
    if Newer(e, m) then e.value else EntryOf(m)
  }

  /** Puts a mapping on its port: the new table, and whether it succeeded. A failed
      listen leaves the port without an entry. */
  function Place(t: Table, m: Mapping, listenOk: bool): (Table, bool) {
    if NeedsListen(Lookup(t, m.port), m) && !listenOk then (t - {m.port}, false)
    else (t[m.port := Merge(Lookup(t, m.port), m)], true)
  }

  /** Applies one mapping, unless it is invalid. */
  function Apply(t: Table, m: Mapping, listenOk: bool): (Table, bool) {
    if !ValidMapping(m) then (t, false) else Place(t, m, listenOk)
  }

  /** Applies the valid mappings of a snapshot in order, up to the first failure. */
  function ApplyAll(t: Table, ms: seq<Mapping>, listens: seq<bool>): (Table, bool)
    requires |ms| == |listens|
    decreases |ms|
  {
    if ms == [] then (t, true)
    else if !ValidMapping(ms[0]) then ApplyAll(t, ms[1..], listens[1..])
    else
      var (t', ok) := Apply(t, ms[0], listens[0]);
      if ok then ApplyAll(t', ms[1..], listens[1..]) else (t', false)
  }

  /** The mapping at `i` comes next. */
  lemma ApplyAllNext(t: Table, ms: seq<Mapping>, listens: seq<bool>, i: nat)
    requires |ms| == |listens| && i < |ms|
    ensures ApplyAll(t, ms[i..], listens[i..]) ==
            if !ValidMapping(ms[i]) then ApplyAll(t, ms[i + 1..], listens[i + 1..])
            else
              var (t', ok) := Apply(t, ms[i], listens[i]);
              if ok then ApplyAll(t', ms[i + 1..], listens[i + 1..]) else (t', false)
    ensures DesiredPorts(ms[..i + 1]) == DesiredPorts(ms[..i]) + if ValidMapping(ms[i]) then {ms[i].port} else {}
  {
    assert ms[i..][1..] == ms[i + 1..] && listens[i..][1..] == listens[i + 1..];
    assert ms[..i + 1] == ms[..i] + [ms[i]];
  }

  function DesiredPorts(ms: seq<Mapping>): set<int32> {
    set m | m in ms && ValidMapping(m) :: m.port
  }

  function Restrict(t: Table, ports: set<int32>): Table {
    map p | p in t && p in ports :: t[p]
  }

  /** Applies a snapshot; ports it does not name are closed only if all of it applied. */
  function Reconcile(t: Table, ms: seq<Mapping>, listens: seq<bool>): (Table, bool)
    requires |ms| == |listens|
  {
    var (t', ok) := ApplyAll(t, ms, listens);
    if ok then (Restrict(t', DesiredPorts(ms)), true) else (t', false)
  }

  /** What applying a mapping does, case by case. An invalid mapping is refused; a later
      revision of its tunnel stands; the same gateway takes the new revision without a
      socket; and anything else needs one and loses the port without it. */
  lemma ApplyCases(t: Table, m: Mapping, listenOk: bool)
    ensures m.port <= 0 || m.gateway == "" ==> Apply(t, m, listenOk) == (t, false)
    ensures m.port > 0 && m.gateway != "" ==>
              Apply(t, m, listenOk) ==
              if m.port in t && t[m.port].key == m.key && t[m.port].revision > m.revision then (t, true)
              else if m.port in t && t[m.port].key == m.key && t[m.port].gateway == m.gateway
              then (t[m.port := Entry(m.key, m.gateway, m.revision)], true)
              else if listenOk then (t[m.port := Entry(m.key, m.gateway, m.revision)], true)
                else (t - {m.port}, false)
  {
    if m.port in t && t[m.port].key == m.key && t[m.port].revision > m.revision {
      assert t[m.port := t[m.port]] == t;
    }
  }

  /** A new revision with the gateway a port already has needs no socket. */
  lemma SameGatewayNeedsNoListen(t: Table, m: Mapping, listenOk: bool)
    requires m.port > 0 && m.gateway != ""
    requires m.port in t && t[m.port].key == m.key && t[m.port].gateway == m.gateway && t[m.port].revision <= m.revision
    ensures Apply(t, m, listenOk) == (t[m.port := Entry(m.key, m.gateway, m.revision)], true)
  {
    ApplyCases(t, m, listenOk);
  }

  // ---------------------------------------------------------------- replay

  /** Replays same-port updates on one entry with every listen succeeding. */
  function Replay(e: Option<Entry>, ms: seq<Mapping>): Option<Entry>
    decreases |ms|
  {
    if ms == [] then e else Replay(Some(Merge(e, ms[0])), ms[1..])
  }

  /** The revision decides the gateway, among the replayed mappings and the entry. */
  ghost predicate RevisionDecides(e: Option<Entry>, ms: seq<Mapping>) {
    && (forall i, j :: 0 <= i < |ms| && 0 <= j < |ms| && ms[i].revision == ms[j].revision ==> ms[i].gateway == ms[j].gateway)
    && (e.Some? ==> forall i :: 0 <= i < |ms| && ms[i].revision == e.value.revision ==> ms[i].gateway == e.value.gateway)
  }

  ghost predicate SameTunnel(k: Key, e: Option<Entry>, ms: seq<Mapping>) {
    && (e.Some? ==> e.value.key == k)
    && forall i :: 0 <= i < |ms| ==> ms[i].key == k
  }

  /** The entry is among the candidates and none has a higher revision. */
  ghost predicate IsLatest(r: Option<Entry>, e: Option<Entry>, ms: seq<Mapping>) {
    && r.Some?
    && (r == e || exists i :: 0 <= i < |ms| && r.value == EntryOf(ms[i]))
    && (e.Some? ==> e.value.revision <= r.value.revision)
    && forall i :: 0 <= i < |ms| ==> ms[i].revision <= r.value.revision
  }

  /** Replaying any non-empty list of one tunnel's mappings ends on the mapping
      with the highest revision. */
  lemma {:induction false} ReplayIsLatest(k: Key, e: Option<Entry>, ms: seq<Mapping>)
    requires SameTunnel(k, e, ms) && RevisionDecides(e, ms)
    requires e.Some? || ms != []
    ensures IsLatest(Replay(e, ms), e, ms)
    decreases |ms|
  {
    if ms != [] {
      var e' := Some(Merge(e, ms[0]));
      ReplayIsLatest(k, e', ms[1..]);
      var r := Replay(e', ms[1..]);
      assert forall i :: 1 <= i < |ms| ==> ms[1..][i - 1] == ms[i];
      assert r == e' || exists i :: 0 <= i < |ms| && r.value == EntryOf(ms[i]);
      assert e' == e || e'.value == EntryOf(ms[0]);
    }
  }

  /** So the order of the replay and its repetitions do not matter. */
  lemma ReplayIsJoin(k: Key, e: Option<Entry>, ms: seq<Mapping>, ns: seq<Mapping>)
    requires SameTunnel(k, e, ms) && RevisionDecides(e, ms)
    requires forall m :: m in ms <==> m in ns
    ensures Replay(e, ms) == Replay(e, ns)
  {
    if ms == [] {
      assert forall i :: 0 <= i < |ns| ==> ns[i] in ms;
    } else {
      assert ms[0] in ns;
      assert forall i :: 0 <= i < |ns| ==> ns[i] in ms;
      assert forall i :: 0 <= i < |ms| ==> ms[i] in ns;
      ReplayIsLatest(k, e, ms);
      ReplayIsLatest(k, e, ns);
      LatestUnique(k, e, ms, ns, Replay(e, ms), Replay(e, ns));
    }
  }

  lemma LatestUnique(k: Key, e: Option<Entry>, ms: seq<Mapping>, ns: seq<Mapping>, r: Option<Entry>, s: Option<Entry>)
    requires SameTunnel(k, e, ms) && RevisionDecides(e, ms)
    requires forall i :: 0 <= i < |ns| ==> ns[i] in ms
    requires forall i :: 0 <= i < |ms| ==> ms[i] in ns
    requires IsLatest(r, e, ms) && IsLatest(s, e, ns)
    ensures r == s
  {
    assert s == e || exists i :: 0 <= i < |ms| && s.value == EntryOf(ms[i]) by {
      if s != e {
        var j :| 0 <= j < |ns| && s.value == EntryOf(ns[j]);
        assert ns[j] in ms;
      }
    }
    assert r.value.revision <= s.value.revision by {
      if r != e {
        var i :| 0 <= i < |ms| && r.value == EntryOf(ms[i]);
        assert ms[i] in ns;
      }
    }
    assert s.value.revision <= r.value.revision;
  }

  /** Two updates of one tunnel commute exactly when they differ in revision or
      agree on the gateway. */
  lemma ReplayCommutesIff(a: Mapping, b: Mapping)
    requires a.key == b.key
    ensures Replay(None, [a, b]) == Replay(None, [b, a]) <==> (a.revision != b.revision || a.gateway == b.gateway)
  {
    ReplayTwo(a, b);
    ReplayTwo(b, a);
  }

  lemma ReplayTwo(a: Mapping, b: Mapping)
    ensures Replay(None, [a, b]) == Some(Merge(Some(EntryOf(a)), b))
  {
    var e := Some(EntryOf(a));
    assert [a, b][1..] == [b] && [b][1..] == [];
    assert Merge(None, a) == EntryOf(a);
    assert Replay(None, [a, b]) == Replay(e, [b]);
    assert Replay(e, [b]) == Replay(Some(Merge(e, b)), []);
  }

  // ---------------------------------------------------------------- snapshots

  ghost predicate DistinctPorts(ms: seq<Mapping>) {
    forall i, j :: 0 <= i < j < |ms| && ValidMapping(ms[i]) && ValidMapping(ms[j]) ==> ms[i].port != ms[j].port
  }

  /** The mapping needs a new socket and does not get one. */
  ghost predicate Blocked(t: Table, m: Mapping, listenOk: bool) {
    ValidMapping(m) && NeedsListen(Lookup(t, m.port), m) && !listenOk
  }

  /** The index of the first mapping whose needed listen fails, or the length. */
  ghost function FirstBlocked(t: Table, ms: seq<Mapping>, listens: seq<bool>): (k: int)
    requires |ms| == |listens|
    ensures 0 <= k <= |ms|
    ensures forall j :: 0 <= j < k ==> !Blocked(t, ms[j], listens[j])
    ensures k < |ms| ==> Blocked(t, ms[k], listens[k])
  {
    if ms == [] || Blocked(t, ms[0], listens[0]) then 0
    else 1 + FirstBlocked(t, ms[1..], listens[1..])
  }

  lemma {:induction false} ApplyAllConcat(t: Table, ms: seq<Mapping>, listens: seq<bool>, k: int)
    requires |ms| == |listens| && 0 <= k <= |ms|
    ensures var (t', ok) := ApplyAll(t, ms[..k], listens[..k]);
            ApplyAll(t, ms, listens) == if ok then ApplyAll(t', ms[k..], listens[k..]) else (t', false)
    decreases |ms|
  {
    if k == 0 {
      assert ms[0..] == ms && listens[0..] == listens;
    } else {
      assert ms[..k][1..] == ms[1..][..k - 1] && listens[..k][1..] == listens[1..][..k - 1];
      assert ms[1..][k - 1..] == ms[k..] && listens[1..][k - 1..] == listens[k..];
      var t1 := if ValidMapping(ms[0]) then Apply(t, ms[0], listens[0]).0 else t;
      ApplyAllConcat(t1, ms[1..], listens[1..], k - 1);
    }
  }

  /** The first mapping of a snapshot shares its port with no other. */
  lemma HeadApart(ms: seq<Mapping>)
    requires ms != [] && DistinctPorts(ms)
    ensures DistinctPorts(ms[1..])
    ensures ValidMapping(ms[0]) ==> ms[0].port !in DesiredPorts(ms[1..])
    ensures DesiredPorts(ms) == DesiredPorts(ms[1..]) + if ValidMapping(ms[0]) then {ms[0].port} else {}
  {
    var rest := ms[1..];
    assert ms == [ms[0]] + rest;
    assert forall i :: 0 <= i < |rest| ==> rest[i] == ms[i + 1];
  }

  lemma ApplyElsewhere(t: Table, m: Mapping, listenOk: bool, p: int32)
    requires p != m.port
    ensures Lookup(Apply(t, m, listenOk).0, p) == Lookup(t, p)
  {
  }

  /** With no needed listen failing, a port the snapshot does not name is untouched. */
  lemma {:induction false} ApplyAllElsewhere(t: Table, ms: seq<Mapping>, listens: seq<bool>, p: int32)
    requires |ms| == |listens| && p !in DesiredPorts(ms)
    ensures Lookup(ApplyAll(t, ms, listens).0, p) == Lookup(t, p)
    decreases |ms|
  {
    if ms != [] {
      assert forall m :: m in ms[1..] ==> m in ms;
      if ValidMapping(ms[0]) {
        assert ms[0] in ms;
        ApplyElsewhere(t, ms[0], listens[0], p);
        ApplyAllElsewhere(Apply(t, ms[0], listens[0]).0, ms[1..], listens[1..], p);
      } else {
        ApplyAllElsewhere(t, ms[1..], listens[1..], p);
      }
    }
  }

  /** The table after the first mapping of a snapshot. */
  function AfterHead(t: Table, ms: seq<Mapping>, listens: seq<bool>): Table
    requires |ms| == |listens| && ms != []
  {
    if ValidMapping(ms[0]) then Apply(t, ms[0], listens[0]).0 else t
  }

  /** After the first mapping, no needed listen of the rest fails either. */
  lemma RestUnblocked(t: Table, ms: seq<Mapping>, listens: seq<bool>)
    requires |ms| == |listens| && ms != [] && DistinctPorts(ms)
    requires forall i :: 0 <= i < |ms| ==> !Blocked(t, ms[i], listens[i])
    ensures ApplyAll(t, ms, listens) == ApplyAll(AfterHead(t, ms, listens), ms[1..], listens[1..])
    ensures forall i :: 0 <= i < |ms[1..]| ==> !Blocked(AfterHead(t, ms, listens), ms[1..][i], listens[1..][i])
  {
    HeadApart(ms);
    assert !Blocked(t, ms[0], listens[0]);
    forall i | 0 <= i < |ms[1..]|
      ensures !Blocked(AfterHead(t, ms, listens), ms[1..][i], listens[1..][i])
    {
      var m := ms[1..][i];
      assert m == ms[i + 1] && listens[1..][i] == listens[i + 1] && m in ms[1..];
      if ValidMapping(m) && ValidMapping(ms[0]) {
        ApplyElsewhere(t, ms[0], listens[0], m.port);
      }
    }
  }

  /** With no needed listen failing, a mapping of the snapshot is merged into its port. */
  lemma {:induction false} ApplyAllAt(t: Table, ms: seq<Mapping>, listens: seq<bool>, i: nat)
    requires |ms| == |listens| && DistinctPorts(ms)
    requires forall j :: 0 <= j < |ms| ==> !Blocked(t, ms[j], listens[j])
    requires i < |ms| && ValidMapping(ms[i])
    ensures Lookup(ApplyAll(t, ms, listens).0, ms[i].port) == Some(Merge(Lookup(t, ms[i].port), ms[i]))
    decreases |ms|
  {
    HeadApart(ms);
    RestUnblocked(t, ms, listens);
    var t1 := AfterHead(t, ms, listens);
    if i == 0 {
      assert !Blocked(t, ms[0], listens[0]);
      ApplyAllElsewhere(t1, ms[1..], listens[1..], ms[0].port);
    } else {
      ApplyAllAt(t1, ms[1..], listens[1..], i - 1);
      assert ms[1..][i - 1] == ms[i];
      if ValidMapping(ms[0]) {
        ApplyElsewhere(t, ms[0], listens[0], ms[i].port);
      }
    }
  }

  lemma {:induction false} UnblockedSucceeds(t: Table, ms: seq<Mapping>, listens: seq<bool>)
    requires |ms| == |listens| && DistinctPorts(ms)
    requires forall i :: 0 <= i < |ms| ==> !Blocked(t, ms[i], listens[i])
    ensures ApplyAll(t, ms, listens).1
    decreases |ms|
  {
    if ms != [] {
      HeadApart(ms);
      RestUnblocked(t, ms, listens);
      UnblockedSucceeds(AfterHead(t, ms, listens), ms[1..], listens[1..]);
    }
  }

  /** With no needed listen failing, every mapping of the snapshot is merged into
      its port and all other ports are untouched. */
  lemma ApplyAllSucceeds(t: Table, ms: seq<Mapping>, listens: seq<bool>)
    requires |ms| == |listens| && DistinctPorts(ms)
    requires forall i :: 0 <= i < |ms| ==> !Blocked(t, ms[i], listens[i])
    ensures ApplyAll(t, ms, listens).1
    ensures forall i :: 0 <= i < |ms| && ValidMapping(ms[i])
                        ==> Lookup(ApplyAll(t, ms, listens).0, ms[i].port) == Some(Merge(Lookup(t, ms[i].port), ms[i]))
    ensures forall p :: p !in DesiredPorts(ms) ==> Lookup(ApplyAll(t, ms, listens).0, p) == Lookup(t, p)
  {
    UnblockedSucceeds(t, ms, listens);
    forall i | 0 <= i < |ms| && ValidMapping(ms[i])
      ensures Lookup(ApplyAll(t, ms, listens).0, ms[i].port) == Some(Merge(Lookup(t, ms[i].port), ms[i]))
    {
      ApplyAllAt(t, ms, listens, i);
    }
    forall p | p !in DesiredPorts(ms)
      ensures Lookup(ApplyAll(t, ms, listens).0, p) == Lookup(t, p)
    {
      ApplyAllElsewhere(t, ms, listens, p);
    }
  }

  /** Up to a first failing listen at `k`: the earlier mappings are applied and
      then the failing port loses its entry. */
  lemma ApplyAllFails(t: Table, ms: seq<Mapping>, listens: seq<bool>, k: int)
    requires |ms| == |listens| && DistinctPorts(ms)
    requires 0 <= k < |ms| && Blocked(t, ms[k], listens[k])
    requires forall j :: 0 <= j < k ==> !Blocked(t, ms[j], listens[j])
    ensures DistinctPorts(ms[..k]) && ms[k].port !in DesiredPorts(ms[..k])
    ensures forall j :: 0 <= j < k ==> !Blocked(t, ms[..k][j], listens[..k][j])
    ensures ApplyAll(t, ms, listens) == (ApplyAll(t, ms[..k], listens[..k]).0 - {ms[k].port}, false)
  {
    ApplyAllConcat(t, ms, listens, k);
    ApplyAllSucceeds(t, ms[..k], listens[..k]);
    assert ms[k].port !in DesiredPorts(ms[..k]);
    var t1 := ApplyAll(t, ms[..k], listens[..k]).0;
    assert Lookup(t1, ms[k].port) == Lookup(t, ms[k].port);
    assert ms[k..][0] == ms[k] && listens[k..][0] == listens[k];
    assert ApplyAll(t1, ms[k..], listens[k..]) == (t1 - {ms[k].port}, false);
  }

  /** What a snapshot leaves that fails at index `k`. */
  ghost predicate FailedAt(t: Table, ms: seq<Mapping>, t': Table, k: nat)
    requires k < |ms|
  {
    && Lookup(t', ms[k].port) == None
    && (forall i :: 0 <= i < k && ValidMapping(ms[i]) ==> Lookup(t', ms[i].port) == Some(Merge(Lookup(t, ms[i].port), ms[i])))
    && (forall p :: p !in DesiredPorts(ms[..k + 1]) ==> Lookup(t', p) == Lookup(t, p))
  }

  lemma FailsAt(t: Table, ms: seq<Mapping>, listens: seq<bool>, k: nat)
    requires |ms| == |listens| && DistinctPorts(ms)
    requires k < |ms| && Blocked(t, ms[k], listens[k])
    requires forall j :: 0 <= j < k ==> !Blocked(t, ms[j], listens[j])
    ensures !Reconcile(t, ms, listens).1 && FailedAt(t, ms, Reconcile(t, ms, listens).0, k)
  {
    var early := ms[..k];
    ApplyAllFails(t, ms, listens, k);
    var t1, t' := ApplyAll(t, early, listens[..k]).0, Reconcile(t, ms, listens).0;
    assert t' == t1 - {ms[k].port};
    forall i | 0 <= i < k && ValidMapping(ms[i])
      ensures Lookup(t', ms[i].port) == Some(Merge(Lookup(t, ms[i].port), ms[i]))
    {
      assert early[i] == ms[i] && ms[i] in early;
      ApplyAllAt(t, early, listens[..k], i);
    }
    forall p | p !in DesiredPorts(ms[..k + 1])
      ensures Lookup(t', p) == Lookup(t, p)
    {
      assert forall m :: m in early ==> m in ms[..k + 1];
      assert ms[k] in ms[..k + 1];
      ApplyAllElsewhere(t, early, listens[..k], p);
    }
  }

  /** A snapshot fails exactly when some needed listen does, and then at the first
      one, `k`: the earlier mappings are applied, the failing port is left without
      an entry, and every port outside the first `k + 1` mappings is untouched. */
  lemma FailedReconcileFrame(t: Table, ms: seq<Mapping>, listens: seq<bool>)
    requires |ms| == |listens| && DistinctPorts(ms)
    ensures var (t', ok) := Reconcile(t, ms, listens);
            var k := FirstBlocked(t, ms, listens);
            && (ok <==> k == |ms|)
            && (!ok ==>
                  && Lookup(t', ms[k].port) == None
                  && (forall i :: 0 <= i < k && ValidMapping(ms[i])
                                  ==> Lookup(t', ms[i].port) == Some(Merge(Lookup(t, ms[i].port), ms[i])))
                  && (forall p :: p !in DesiredPorts(ms[..k + 1]) ==> Lookup(t', p) == Lookup(t, p)))
  {
    var k := FirstBlocked(t, ms, listens);
    if k == |ms| {
      UnblockedSucceeds(t, ms, listens);
    } else {
      FailsAt(t, ms, listens, k);
    }
  }

  /** A failed reconcile keeps every mapped port mapped exactly when the failing
      port was not mapped before the call: removal precedes the listen, so a
      failed replacement does take down a usable mapping. */
  lemma FailedReconcileKeepsPortsIff(t: Table, ms: seq<Mapping>, listens: seq<bool>)
    requires |ms| == |listens| && DistinctPorts(ms)
    requires !Reconcile(t, ms, listens).1
    ensures FirstBlocked(t, ms, listens) < |ms|
    ensures t.Keys <= Reconcile(t, ms, listens).0.Keys <==> ms[FirstBlocked(t, ms, listens)].port !in t
  {
    FailedReconcileFrame(t, ms, listens);
    var k := FirstBlocked(t, ms, listens);
    var t' := Reconcile(t, ms, listens).0;
    if ms[k].port !in t {
      forall p | p in t
        ensures p in t'
      {
        if p in DesiredPorts(ms[..k + 1]) {
          var m :| m in ms[..k + 1] && ValidMapping(m) && m.port == p;
          var i :| 0 <= i < k + 1 && ms[i] == m;
          assert i != k;
          assert Lookup(t', ms[i].port).Some?;
        } else {
          assert Lookup(t', p) == Lookup(t, p);
        }
      }
    } else {
      assert Lookup(t', ms[k].port) == None;
    }
  }

  /** The comment's stronger claim has this counterexample: one mapped port, a
      replacement gateway, and a refused socket. */
  lemma FailedReplacementRemovesMapping()
    ensures var k := Key("team", "db");
            var t: Table := map[51820 := Entry(k, "10.0.0.1:51820", 1)];
            Reconcile(t, [Mapping(k, 51820, "10.0.0.2:51820", 2)], [false]) == (map[], false)
  {
    var k := Key("team", "db");
    var t: Table := map[51820 := Entry(k, "10.0.0.1:51820", 1)];
    var m := Mapping(k, 51820, "10.0.0.2:51820", 2);
    assert t[51820].gateway[7] == '1' && m.gateway[7] == '2';
    assert Apply(t, m, false) == (t - {51820}, false);
    assert t - {51820} == map[];
    assert ApplyAll(t, [m], [false]) == (map[], false);
  }

  /** A successful reconcile leaves exactly the snapshot's ports; each holds the
      snapshot's mapping, or the entry of the same tunnel it already had at a
      strictly higher revision. */
  lemma ReconcileExact(t: Table, ms: seq<Mapping>, listens: seq<bool>)
    requires |ms| == |listens| && DistinctPorts(ms)
    requires Reconcile(t, ms, listens).1
    ensures var t' := Reconcile(t, ms, listens).0;
            && t'.Keys == DesiredPorts(ms)
            && forall i :: 0 <= i < |ms| && ValidMapping(ms[i]) ==>
                             Lookup(t', ms[i].port) == if Newer(Lookup(t, ms[i].port), ms[i]) then Lookup(t, ms[i].port) else Some(EntryOf(ms[i]))
  {
    FailedReconcileFrame(t, ms, listens);
    ApplyAllSucceeds(t, ms, listens);
    var t1 := ApplyAll(t, ms, listens).0;
    forall p | p in DesiredPorts(ms)
      ensures p in t1
    {
      var m :| m in ms && ValidMapping(m) && m.port == p;
      var i :| 0 <= i < |ms| && ms[i] == m;
      assert Lookup(t1, ms[i].port).Some?;
    }
    assert forall i :: 0 <= i < |ms| && ValidMapping(ms[i]) ==> ms[i].port in DesiredPorts(ms);
  }

  /** The result matches the snapshot exactly when no port already held a later
      revision of its tunnel. */
  lemma ReconcileMatchesSnapshotIff(t: Table, ms: seq<Mapping>, listens: seq<bool>)
    requires |ms| == |listens| && DistinctPorts(ms)
    requires Reconcile(t, ms, listens).1
    ensures (forall i :: 0 <= i < |ms| && ValidMapping(ms[i]) ==> Lookup(Reconcile(t, ms, listens).0, ms[i].port) == Some(EntryOf(ms[i])))
       <==> (forall i :: 0 <= i < |ms| && ValidMapping(ms[i]) ==> !Newer(Lookup(t, ms[i].port), ms[i]))
  {
    ReconcileExact(t, ms, listens);
  }

  /** A later revision survives an older snapshot. */
  lemma LaterEntrySurvivesSnapshot()
    ensures var k := Key("team", "db");
            var t: Table := map[51820 := Entry(k, "10.0.0.2:51820", 2)];
            Reconcile(t, [Mapping(k, 51820, "10.0.0.1:51820", 1)], [true]) == (t, true)
  {
    var k := Key("team", "db");
    var t: Table := map[51820 := Entry(k, "10.0.0.2:51820", 2)];
    var m := Mapping(k, 51820, "10.0.0.1:51820", 1);
    assert t[51820 := t[51820]] == t;
    assert Apply(t, m, true) == (t, true);
    assert [m][1..] == [] && [true][1..] == [];
    assert ApplyAll(t, [m], [true]) == ApplyAll(t, [], []);
    assert m in [m] && ValidMapping(m) && DesiredPorts([m]) == {51820};
    assert Restrict(t, {51820}) == t;
  }

  /** Reconciling the same snapshot again changes nothing and opens no socket. */
  lemma ReconcileIdempotent(t: Table, ms: seq<Mapping>, listens: seq<bool>, again: seq<bool>)
    requires |ms| == |listens| == |again| && DistinctPorts(ms)
    requires Reconcile(t, ms, listens).1
    ensures var t' := Reconcile(t, ms, listens).0; Reconcile(t', ms, again) == (t', true)
  {
    var t' := Reconcile(t, ms, listens).0;
    ReconcileExact(t, ms, listens);
    assert forall i :: 0 <= i < |ms| && ValidMapping(ms[i]) ==> !NeedsListen(Lookup(t', ms[i].port), ms[i]);
    FailedReconcileFrame(t', ms, again);
    ReconcileExact(t', ms, again);
    var t'' := Reconcile(t', ms, again).0;
    forall p | p in t'
      ensures p in t'' && t''[p] == t'[p]
    {
      var m :| m in ms && ValidMapping(m) && m.port == p;
      var i :| 0 <= i < |ms| && ms[i] == m;
      assert Lookup(t'', ms[i].port) == Lookup(t', ms[i].port);
    }
    assert t'' == t';
  }

  // ---------------------------------------------------------------- the object

  /** A listening port. Only the revision changes while it serves; `open` turns
      false when its socket is closed and its goroutines are cancelled. */
  class PortListener {
    const port: int32
    const key: Key
    const gateway: string
    var revision: int
    var open: bool

    constructor (port: int32, key: Key, gateway: string, revision: int)
      ensures this.port == port && this.key == key && this.gateway == gateway && this.revision == revision && open
    {
      this.port, this.key, this.gateway, this.revision, open := port, key, gateway, revision, true;
    }
  }

  class Proxy {
    var mappings: map<int32, PortListener>

    ghost function Listeners(): set<PortListener>
      reads this
    {
      mappings.Values
    }

    ghost predicate Valid()
      reads this, Listeners()
    {
      forall p :: p in mappings ==> mappings[p].open && mappings[p].port == p
    }

    ghost function View(): Table
      reads this, Listeners()
    {
      map p | p in mappings :: Entry(mappings[p].key, mappings[p].gateway, mappings[p].revision)
    }

    /** Every listener of an earlier table still serves its port or has been closed. */
    ghost predicate NoneLeaked(before: map<int32, PortListener>)
      reads this, before.Values
    {
      forall p :: p in before ==> (p in mappings && mappings[p] == before[p]) || !before[p].open
    }

    /** The port's listener serves the tunnel at a later revision or at the same gateway. */
    ghost predicate Stays(port: int32, gateway: string, key: Key, revision: int)
      reads this, Listeners()
    {
      && port in mappings && mappings[port].key == key
      && (mappings[port].revision > revision || mappings[port].gateway == gateway)
    }

    constructor ()
      ensures Valid() && View() == map[] && mappings == map[]
    {
      mappings := map[];
    }

    method RemoveMapping(port: int32)
      requires Valid()
      modifies this, Listeners()`open
      ensures Valid() && Listeners() <= old(Listeners()) && NoneLeaked(old(mappings))
      ensures View() == old(View()) - {port}
      ensures mappings == old(mappings) - {port}
    {
      if port !in mappings {
        assert View() == View() - {port};
        assert mappings == mappings - {port};
        return;
      }
      var listener := mappings[port];
      mappings := mappings - {port};
      listener.open := false;
    }

    method AddMapping(port: int32, gateway: string, key: Key, revision: int, listenOk: bool) returns (ok: bool)
      requires Valid()
      modifies this, Listeners()
      ensures Valid() && fresh(Listeners() - old(Listeners())) && NoneLeaked(old(mappings))
      ensures (View(), ok) == Place(old(View()), Mapping(key, port, gateway, revision), listenOk)
      ensures old(Stays(port, gateway, key, revision)) ==> port in mappings && mappings[port] == old(mappings[port])
    {
      var kept := KeepOrDrop(port, gateway, key, revision);
      if kept {
        return true;
      }
      if !listenOk {
        return false;
      }
      Listen(port, gateway, key, revision);
      assert old(View())[port := Entry(key, gateway, revision)] == (old(View()) - {port})[port := Entry(key, gateway, revision)];
      return true;
    }

    /** Keeps a listener that serves the mapping already, at the later revision, and closes
        any other one on its port. */
    method KeepOrDrop(port: int32, gateway: string, key: Key, revision: int) returns (kept: bool)
      requires Valid()
      modifies this, Listeners()
      ensures Valid() && Listeners() <= old(Listeners()) && NoneLeaked(old(mappings))
      ensures kept <==> !NeedsListen(Lookup(old(View()), port), Mapping(key, port, gateway, revision))
      ensures kept ==> View() == old(View())[port := Merge(Lookup(old(View()), port), Mapping(key, port, gateway, revision))]
      ensures !kept ==> View() == old(View()) - {port} && port !in mappings
      ensures old(Stays(port, gateway, key, revision)) ==> kept && mappings == old(mappings)
    {
      if port !in mappings {
        assert View() == View() - {port};
        return false;
      }
      var existing := mappings[port];
      var sameTunnel := existing.key == key;
      if sameTunnel && existing.revision > revision {
        assert View() == View()[port := View()[port]];
        return true;
      }
      if sameTunnel && existing.gateway == gateway {
        if existing.revision < revision {
          existing.revision := revision;
        }
        assert View() == old(View())[port := Entry(key, gateway, revision)];
        return true;
      }
      RemoveMapping(port);
      return false;
    }

    /** Starts serving a free port. */
    method Listen(port: int32, gateway: string, key: Key, revision: int)
      requires Valid() && port !in mappings
      modifies this
      ensures Valid() && fresh(Listeners() - old(Listeners()))
      ensures mappings.Keys == old(mappings.Keys) + {port}
      ensures forall p :: p in old(mappings) ==> mappings[p] == old(mappings)[p]
      ensures View() == old(View())[port := Entry(key, gateway, revision)]
    {
      var listener := new PortListener(port, key, gateway, revision);
      mappings := mappings[port := listener];
    }

    /** Applies a mapping unless it is older than the active one. */
    method ApplyMapping(mapping: Mapping, listenOk: bool) returns (ok: bool)
      requires Valid()
      modifies this, Listeners()
      ensures Valid() && fresh(Listeners() - old(Listeners())) && NoneLeaked(old(mappings))
      ensures (View(), ok) == Apply(old(View()), mapping, listenOk)
      ensures mapping.port > 0 && mapping.gateway != "" && old(Stays(mapping.port, mapping.gateway, mapping.key, mapping.revision))
              ==> ok && mapping.port in mappings && mappings[mapping.port] == old(mappings[mapping.port])
    {
      if mapping.port <= 0 || mapping.gateway == "" {
        return false;
      }
      ok := AddMapping(mapping.port, mapping.gateway, mapping.key, mapping.revision, listenOk);
    }

    method Ports() returns (ports: seq<int32>)
      ensures forall p :: p in ports <==> p in mappings
      ensures forall i, j :: 0 <= i < j < |ports| ==> ports[i] != ports[j]
    {
      ports := [];
      var todo := mappings.Keys;
      while todo != {}
        invariant todo <= mappings.Keys
        invariant forall p :: p in ports <==> p in mappings && p !in todo
        invariant forall i, j :: 0 <= i < j < |ports| ==> ports[i] != ports[j]
        decreases todo
      {
        var p :| p in todo;
        ports := ports + [p];
        todo := todo - {p};
      }
    }

    /** Applies the snapshot's mappings up to the first failure, and collects their ports. */
    method ApplyMappings(ms: seq<Mapping>, listens: seq<bool>) returns (ok: bool, desired: set<int32>)
      requires Valid() && |ms| == |listens|
      modifies this, Listeners()
      ensures Valid() && fresh(Listeners() - old(Listeners())) && NoneLeaked(old(mappings))
      ensures (View(), ok) == ApplyAll(old(View()), ms, listens)
      ensures ok ==> desired == DesiredPorts(ms)
    {
      desired := {};
      for i := 0 to |ms|
        invariant Valid() && fresh(Listeners() - old(Listeners())) && NoneLeaked(old(mappings))
        invariant ApplyAll(View(), ms[i..], listens[i..]) == ApplyAll(old(View()), ms, listens)
        invariant desired == DesiredPorts(ms[..i])
      {
        ApplyAllNext(View(), ms, listens, i);
        var mapping := ms[i];
        if mapping.port <= 0 || mapping.gateway == "" {
          continue;
        }
        desired := desired + {mapping.port};
        ok := ApplyMapping(mapping, listens[i]);
        if !ok {
          return false, desired;
        }
      }
      assert ms[..|ms|] == ms;
      return true, desired;
    }

    /** Applies the snapshot, then closes the ports it does not name. */
    method ReconcileMappings(ms: seq<Mapping>, listens: seq<bool>) returns (ok: bool)
      requires Valid() && |ms| == |listens|
      modifies this, Listeners()
      ensures Valid() && fresh(Listeners() - old(Listeners())) && NoneLeaked(old(mappings))
      ensures (View(), ok) == Reconcile(old(View()), ms, listens)
    {
      var desired;
      ok, desired := ApplyMappings(ms, listens);
      if ok {
        RemoveStale(desired);
      }
    }

    /** Closes the listeners whose port is not desired. */
    method RemoveStale(desired: set<int32>)
      requires Valid()
      modifies this, Listeners()`open
      ensures Valid() && Listeners() <= old(Listeners()) && NoneLeaked(old(mappings))
      ensures View() == Restrict(old(View()), desired)
    {
      var ports := Ports();
      ClosePorts(ports, desired);
      assert mappings == map p | p in old(mappings) && p in desired :: old(mappings)[p];
    }

    /** Closes the listed ports that are not desired. */
    method ClosePorts(ports: seq<int32>, desired: set<int32>)
      requires Valid()
      modifies this, Listeners()`open
      ensures Valid() && NoneLeaked(old(mappings))
      ensures mappings == map p | p in old(mappings) && (p in desired || p !in ports) :: old(mappings)[p]
    {
      for i := 0 to |ports|
        invariant Valid() && Listeners() <= old(Listeners()) && NoneLeaked(old(mappings))
        invariant mappings == map p | p in old(mappings) && (p in desired || p !in ports[..i]) :: old(mappings)[p]
      {
        assert ports[..i + 1] == ports[..i] + [ports[i]];
        if ports[i] !in desired {
          RemoveMapping(ports[i]);
        }
      }
      assert ports[..|ports|] == ports;
    }

    method Close()
      requires Valid()
      modifies this, Listeners()`open
      ensures Valid() && mappings == map[]
      ensures forall p :: p in old(mappings) ==> !old(mappings)[p].open
    {
      RemoveStale({});
      assert mappings.Keys == View().Keys == {};
    }
  }
}
