/** The operator's config service: registered update streams with bounded queues,
    the acknowledgement table, and configuration snapshots. */
module ForwarderService {
  import opened TunnelTypes
  import opened PortAlloc

  type Id = string

  const QUEUE_CAPACITY := 64

  /** A registered stream: updates not yet sent, and whether one did not fit. */
  datatype Stream = Stream(id: Id, queue: seq<Update>, overflow: bool)

  type Acks = map<Id, map<Key, int>>

  datatype AckResult = Accepted | InvalidArgument | NotConnected

  function Push(s: Stream, u: Update): (r: Stream)
    ensures r.id == s.id
    ensures |s.queue| <= QUEUE_CAPACITY ==> |r.queue| <= QUEUE_CAPACITY
    ensures s.overflow ==> r.overflow
    ensures !r.overflow ==> !s.overflow && r.queue == s.queue + [u]
    ensures r.overflow && !s.overflow ==> |s.queue| >= 64 && r.queue == s.queue
    ensures |s.queue| < 64 ==> r.overflow == s.overflow && r.queue == s.queue + [u]
  {
    if |s.queue| < QUEUE_CAPACITY then s.(queue := s.queue + [u]) else s.(overflow := true)
  }

  function Notify<R>(streams: map<R, Stream>, u: Update): map<R, Stream> {
    map r | r in streams :: Push(streams[r], u)
  }

  /** Publishes updates one after the other. */
  function NotifyAll<R>(streams: map<R, Stream>, us: seq<Update>): (r: map<R, Stream>)
    ensures r.Keys == streams.Keys
    decreases |us|
  {
    if us == [] then streams else NotifyAll(Notify(streams, us[0]), us[1..])
  }

  function Ids<R>(streams: map<R, Stream>): set<Id> {
    set r | r in streams :: streams[r].id
  }

  function Acked(acks: Acks, id: Id, key: Key): int {
    if id in acks && key in acks[id] then acks[id][key] else 0
  }

  /** The connected forwarders that have not acknowledged the revision. */
  function Missing(ids: set<Id>, acks: Acks, key: Key, revision: int): set<Id> {
    set id | id in ids && Acked(acks, id, key) < revision
  }

  function RecordAck(ids: set<Id>, acks: Acks, id: Id, key: Key, revision: int): (r: (Acks, AckResult))
    ensures r.1.Accepted? <==> id in ids && id != "" && key.name != "" && key.namespace != ""
    ensures r.1.InvalidArgument? <==> id == "" || key.name == "" || key.namespace == ""
    ensures !r.1.Accepted? ==> r.0 == acks
    ensures r.1.Accepted? ==>
              forall i, k :: Acked(r.0, i, k) ==
                             if i == id && k == key && revision > Acked(acks, id, key) then revision else Acked(acks, i, k)
  {
    if id == "" || key.name == "" || key.namespace == "" then (acks, InvalidArgument)
    else if id !in ids then (acks, NotConnected)
    else
      var row := if id in acks then acks[id] else map[];
      if revision > Acked(acks, id, key) then (acks[id := row[key := revision]], Accepted)
      else (acks[id := row], Accepted)
  }

  /** A stream ends: its forwarder's acknowledgements go with its last stream. */
  function DropStream<R>(streams: map<R, Stream>, acks: Acks, r: R): (map<R, Stream>, Acks)
    requires r in streams
  {
    var rest := streams - {r};
    (rest, if streams[r].id in Ids(rest) then acks else acks - {streams[r].id})
  }

  // ---------------------------------------------------------------- snapshots

  datatype Item = Item(key: Key, tunnel: Tunnel)

  /** The mappings of the eligible tunnels, in list order. */
  function Snapshot(items: seq<Item>): seq<Mapping> {
    if items == [] then []
    else
      var before := Snapshot(items[..|items| - 1]);
      var last := items[|items| - 1];
      if Eligible(last.tunnel) then before + [MappingOf(last.key, last.tunnel.status)] else before
  }

  function EligibleClaims(items: seq<Item>): seq<Claim> {
    if items == [] then []
    else
      var before := EligibleClaims(items[..|items| - 1]);
      var last := items[|items| - 1];
      if Eligible(last.tunnel) then before + [Claim(last.key, last.tunnel.status.port)] else before
  }

  /** The item is eligible and the mapping is its. */
  predicate Yields(item: Item, m: Mapping) {
    Eligible(item.tunnel) && m == MappingOf(item.key, item.tunnel.status)
  }

  lemma {:induction false} SnapshotComplete(items: seq<Item>, i: nat, m: Mapping)
    requires i < |items| && Yields(items[i], m)
    ensures m in Snapshot(items)
  {
    var n := |items| - 1;
    if i < n {
      SnapshotComplete(items[..n], i, m);
    }
  }

  lemma {:induction false} SnapshotSound(items: seq<Item>, m: Mapping) returns (i: nat)
    requires m in Snapshot(items)
    ensures i < |items| && Yields(items[i], m)
  {
    var n := |items| - 1;
    if Yields(items[n], m) {
      i := n;
    } else {
      i := SnapshotSound(items[..n], m);
    }
  }

  /** A snapshot holds exactly the mappings of the eligible tunnels listed. */
  lemma SnapshotContents(items: seq<Item>)
    ensures forall m :: m in Snapshot(items)
                        <==> exists i :: 0 <= i < |items| && Eligible(items[i].tunnel) && m == MappingOf(items[i].key, items[i].tunnel.status)
    ensures forall i :: 0 <= i < |items| ==>
                          var t := items[i].tunnel;
                          Eligible(t) <==> !t.deleting && t.status.phase !in {Terminated, Failed}
                                           && t.status.port > 0 && t.status.podIp != "" && t.status.publicKey != ""
  {
    forall m | m in Snapshot(items)
      ensures exists i :: 0 <= i < |items| && Eligible(items[i].tunnel) && m == MappingOf(items[i].key, items[i].tunnel.status)
    {
      var i := SnapshotSound(items, m);
    }
    forall i, m | 0 <= i < |items| && Eligible(items[i].tunnel) && m == MappingOf(items[i].key, items[i].tunnel.status)
      ensures m in Snapshot(items)
    {
      SnapshotComplete(items, i, m);
    }
  }

  /** Tunnels with distinct ports give a snapshot with distinct ports. */
  lemma {:induction false} SnapshotPortsDistinct(items: seq<Item>)
    requires forall i, j :: 0 <= i < j < |items| && Eligible(items[i].tunnel) && Eligible(items[j].tunnel)
                            ==> items[i].tunnel.status.port != items[j].tunnel.status.port
    ensures forall i, j :: 0 <= i < j < |Snapshot(items)| ==> Snapshot(items)[i].port != Snapshot(items)[j].port
  {
    if items != [] {
      var n := |items| - 1;
      var before := Snapshot(items[..n]);
      assert forall i :: 0 <= i < n ==> items[..n][i] == items[i];
      SnapshotPortsDistinct(items[..n]);
      SnapshotContents(items[..n]);
      forall j | 0 <= j < |before| && Eligible(items[n].tunnel)
        ensures before[j].port != items[n].tunnel.status.port
      {
        assert before[j] in before;
        var i :| 0 <= i < n && Eligible(items[..n][i].tunnel) && before[j] == MappingOf(items[..n][i].key, items[..n][i].tunnel.status);
        assert items[i] == items[..n][i];
      }
    }
  }

  ghost predicate DistinctItems(items: seq<Item>) {
    forall i, j :: 0 <= i < j < |items| ==>
                     && items[i].key != items[j].key
                     && (Eligible(items[i].tunnel) && Eligible(items[j].tunnel) ==> items[i].tunnel.status.port != items[j].tunnel.status.port)
  }

  /** Where the claim of an eligible item is in the list of claims. */
  lemma {:induction false} ClaimOf(items: seq<Item>, i: nat) returns (j: nat)
    requires i < |items| && Eligible(items[i].tunnel)
    ensures j < |EligibleClaims(items)| && EligibleClaims(items)[j] == Claim(items[i].key, items[i].tunnel.status.port)
    decreases |items|
  {
    var n := |items| - 1;
    if i == n {
      j := |EligibleClaims(items[..n])|;
    } else {
      j := ClaimOf(items[..n], i);
    }
  }

  /** Every claim is that of an eligible item. */
  lemma {:induction false} ItemOf(items: seq<Item>, j: nat) returns (i: nat)
    requires j < |EligibleClaims(items)|
    ensures i < |items| && Eligible(items[i].tunnel) && EligibleClaims(items)[j] == Claim(items[i].key, items[i].tunnel.status.port)
    decreases |items|
  {
    var n := |items| - 1;
    if j < |EligibleClaims(items[..n])| {
      i := ItemOf(items[..n], j);
    } else {
      i := n;
    }
  }

  lemma {:induction false} EligibleClaimsDistinct(items: seq<Item>)
    requires DistinctItems(items)
    ensures DistinctKeys(EligibleClaims(items)) && DistinctPorts(EligibleClaims(items))
    decreases |items|
  {
    if items != [] {
      var n := |items| - 1;
      var before, last := EligibleClaims(items[..n]), items[n];
      EligibleClaimsDistinct(items[..n]);
      if Eligible(last.tunnel) {
        forall j | 0 <= j < |before|
          ensures before[j].key != last.key && before[j].port != last.tunnel.status.port
        {
          var i := ItemOf(items[..n], j);
          assert items[..n][i] == items[i];
        }
      }
    }
  }

  /** Answering a snapshot request restores the allocation of an eligible tunnel whose port is
      in range, if it is missing and no other tunnel has the port. */
  lemma SnapshotRestoresAllocation(a: Alloc, items: seq<Item>, i: nat)
    requires a.Valid() && DistinctItems(items) && i < |items| && Eligible(items[i].tunnel)
    requires a.InRange(items[i].tunnel.status.port) && !a.Taken(items[i].key, items[i].tunnel.status.port)
    ensures LoadAll(a, EligibleClaims(items)).Holds(items[i].key, items[i].tunnel.status.port)
  {
    EligibleClaimsDistinct(items);
    var j := ClaimOf(items, i);
    LoadAllRestores(a, EligibleClaims(items), j);
  }

  // ---------------------------------------------------------------- queues

  /** A stream overflows only with 64 updates in its queue. */
  lemma {:induction false} OverflowNeedsFullQueue<R>(streams: map<R, Stream>, us: seq<Update>, r: R)
    requires r in streams && |streams[r].queue| <= 64
    requires !streams[r].overflow && NotifyAll(streams, us)[r].overflow
    ensures |NotifyAll(streams, us)[r].queue| == 64 && |streams[r].queue| + |us| > 64
    decreases |us|
  {
    var mid := Notify(streams, us[0]);
    if mid[r].overflow {
      FullStaysFull(mid, us[1..], r);
    } else {
      OverflowNeedsFullQueue(mid, us[1..], r);
    }
  }

  lemma {:induction false} FullStaysFull<R>(streams: map<R, Stream>, us: seq<Update>, r: R)
    requires r in streams && |streams[r].queue| == 64
    ensures |NotifyAll(streams, us)[r].queue| == 64
    decreases |us|
  {
    if us != [] {
      FullStaysFull(Notify(streams, us[0]), us[1..], r);
    }
  }

  /** A stream that has not overflowed holds everything published after what it
      held, in order. */
  lemma {:induction false} NotifyAllAppends<R>(streams: map<R, Stream>, us: seq<Update>, r: R)
    requires r in streams
    ensures NotifyAll(streams, us)[r].id == streams[r].id
    ensures |streams[r].queue| <= QUEUE_CAPACITY ==> |NotifyAll(streams, us)[r].queue| <= QUEUE_CAPACITY
    ensures streams[r].overflow ==> NotifyAll(streams, us)[r].overflow
    ensures !NotifyAll(streams, us)[r].overflow ==>
              !streams[r].overflow && NotifyAll(streams, us)[r].queue == streams[r].queue + us
    decreases |us|
  {
    if us == [] {
      assert streams[r].queue + us == streams[r].queue;
    } else {
      var mid := Notify(streams, us[0]);
      NotifyAllAppends(mid, us[1..], r);
      if !NotifyAll(streams, us)[r].overflow {
        assert mid[r].queue == streams[r].queue + [us[0]];
        assert streams[r].queue + us == streams[r].queue + [us[0]] + us[1..];
      }
    }
  }

  lemma {:induction false} NotifyAllConcat<R>(streams: map<R, Stream>, us: seq<Update>, vs: seq<Update>)
    ensures NotifyAll(NotifyAll(streams, us), vs) == NotifyAll(streams, us + vs)
    decreases |us|
  {
    if us == [] {
      assert us + vs == vs;
    } else {
      assert (us + vs)[0] == us[0] && (us + vs)[1..] == us[1..] + vs;
      NotifyAllConcat(Notify(streams, us[0]), us[1..], vs);
    }
  }

  lemma {:induction false} NotifyAllKeepsIds<R>(streams: map<R, Stream>, us: seq<Update>)
    ensures Ids(NotifyAll(streams, us)) == Ids(streams)
  {
    forall r | r in streams
      ensures NotifyAll(streams, us)[r].id == streams[r].id
    {
      NotifyAllAppends(streams, us, r);
    }
  }

  // ---------------------------------------------------------------- the objects

  /** A stream's bounded channel and its overflow signal. */
  class ForwarderStream {
    const id: Id
    var updates: seq<Update>
    var overflow: bool

    constructor (id: Id)
      ensures this.id == id && updates == [] && !overflow
    {
      this.id, updates, overflow := id, [], false;
    }

    ghost function View(): Stream
      reads this
    {
      Stream(id, updates, overflow)
    }
  }

  class ForwarderServer {
    const allocator: PortAllocator
    var streams: set<ForwarderStream>
    var acks: Acks

    ghost function View(): map<ForwarderStream, Stream>
      reads this, streams
    {
      map s | s in streams :: s.View()
    }

    constructor (allocator: PortAllocator)
      ensures this.allocator == allocator && streams == {} && acks == map[]
    {
      this.allocator, streams, acks := allocator, {}, map[];
    }

    method AddStream(stream: ForwarderStream)
      modifies this`streams
      ensures streams == old(streams) + {stream}
      ensures View() == old(View())[stream := stream.View()]
    {
      streams := streams + {stream};
    }

    method ConnectedLocked(id: Id) returns (r: bool)
      ensures r <==> id in Ids(View())
    {
      var todo := streams;
      while todo != {}
        invariant todo <= streams
        invariant forall s :: s in streams && s !in todo ==> s.id != id
        decreases todo
      {
        var s :| s in todo;
        if s.id == id {
          assert View()[s].id == id;
          return true;
        }
        todo := todo - {s};
      }
      return false;
    }

    method RemoveStream(stream: ForwarderStream)
      requires stream in streams
      modifies this
      ensures (View(), acks) == DropStream(old(View()), old(acks), stream)
    {
      streams := streams - {stream};
      assert View() == old(View()) - {stream};
      assert old(View())[stream].id == stream.id;
      var connected := ConnectedLocked(stream.id);
      if !connected {
        acks := acks - {stream.id};
      }
      assert View() == old(View()) - {stream};
    }

    /** Records an applied revision for a connected forwarder. */
    method Ack(id: Id, key: Key, revision: int) returns (r: AckResult)
      modifies this`acks
      ensures (acks, r) == RecordAck(Ids(View()), old(acks), id, key, revision)
    {
      if id == "" || key.name == "" || key.namespace == "" {
        return InvalidArgument;
      }
      var connected := ConnectedLocked(id);
      if !connected {
        return NotConnected;
      }
      ghost var row := if id in acks then acks[id] else map[];
      if id !in acks {
        acks := acks[id := map[]];
      }
      assert acks == old(acks)[id := row];
      var current := if key in acks[id] then acks[id][key] else 0;
      if revision > current {
        acks := acks[id := acks[id][key := revision]];
        assert acks == old(acks)[id := row[key := revision]];
      }
      return Accepted;
    }

    /** The connected forwarders, each once, that have not acknowledged the revision. */
    method MissingAcks(key: Key, revision: int) returns (missing: seq<Id>)
      ensures forall id :: id in missing <==> id in Missing(Ids(View()), acks, key, revision)
      ensures forall i, j :: 0 <= i < j < |missing| ==> missing[i] != missing[j]
    {
      var ids: set<Id> := {};
      var todo := streams;
      while todo != {}
        invariant todo <= streams
        invariant ids == set s | s in streams && s !in todo :: s.id
        decreases todo
      {
        var s :| s in todo;
        ids := ids + {s.id};
        todo := todo - {s};
      }
      assert ids == Ids(View()) by {
        assert forall s :: s in streams ==> View()[s].id == s.id;
      }
      missing := [];
      var left := ids;
      while left != {}
        invariant left <= ids
        invariant forall id :: id in missing <==> id in ids && id !in left && Acked(acks, id, key) < revision
        invariant forall i, j :: 0 <= i < j < |missing| ==> missing[i] != missing[j]
        decreases left
      {
        var id :| id in left;
        var current := if id in acks && key in acks[id] then acks[id][key] else 0;
        if current < revision {
          missing := missing + [id];
        }
        left := left - {id};
      }
    }

    /** Offers the update to every stream; one that is full is told to resync. */
    method NotifyUpdate(update: Update)
      modifies streams
      ensures View() == Notify(old(View()), update)
    {
      var todo := streams;
      while todo != {}
        invariant todo <= streams
        invariant forall s :: s in streams ==> s.View() == if s in todo then old(s.View()) else Push(old(s.View()), update)
        decreases todo
      {
        var s :| s in todo;
        if |s.updates| < QUEUE_CAPACITY {
          s.updates := s.updates + [update];
        } else {
          s.overflow := true;
        }
        todo := todo - {s};
      }
    }

    /** Answers a snapshot request from the listed tunnels. */
    method GetConfig(items: seq<Item>) returns (mappings: seq<Mapping>)
      requires allocator.Valid()
      modifies allocator
      ensures allocator.Valid() && allocator.View() == LoadAll(old(allocator.View()), EligibleClaims(items))
      ensures mappings == Snapshot(items)
    {
      mappings := [];
      for i := 0 to |items|
        invariant allocator.Valid() && allocator.View() == LoadAll(old(allocator.View()), EligibleClaims(items[..i]))
        invariant mappings == Snapshot(items[..i])
      {
        assert items[..i + 1][..i] == items[..i];
        var tunnel := items[i].tunnel;
        var st := tunnel.status;
        if tunnel.deleting || st.phase == Terminated || st.phase == Failed || st.port <= 0 || st.podIp == "" || st.publicKey == "" {
          continue;
        }
        ghost var claims := EligibleClaims(items[..i]);
        assert (claims + [Claim(items[i].key, st.port)])[..|claims|] == claims;
        allocator.LoadExisting(items[i].key, st.port);
        mappings := mappings + [MappingOf(items[i].key, st)];
      }
      assert items[..|items|] == items;
    }
  }
}
