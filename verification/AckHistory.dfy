/** The acknowledgement table against the history of the server: over every
    sequence of connects, disconnects and acknowledgements, a forwarder's entry
    is the highest revision it acknowledged since it has been connected without
    a break. */
module AckHistory {
  import opened TunnelTypes
  import opened ForwarderService

  datatype Event =
    | Connect(ref: nat, id: Id)
    | Disconnect(ref: nat)
    | Acknowledge(id: Id, key: Key, revision: int)

  datatype Server = Server(streams: map<nat, Stream>, acks: Acks)

  function Handle(s: Server, e: Event): Server {
    match e
    case Connect(ref, id) =>
      if ref in s.streams then s else s.(streams := s.streams[ref := Stream(id, [], false)])
    case Disconnect(ref) =>
      if ref !in s.streams then s
      else
        var (streams, acks) := DropStream(s.streams, s.acks, ref);
        Server(streams, acks)
    case Acknowledge(id, key, revision) =>
      s.(acks := RecordAck(Ids(s.streams), s.acks, id, key, revision).0)
  }

  /** The server after a history. */
  function After(history: seq<Event>): Server {
    if history == [] then Server(map[], map[])
    else Handle(After(history[..|history| - 1]), history[|history| - 1])
  }

  predicate ConnectedAt(history: seq<Event>, n: nat, id: Id)
    requires n <= |history|
  {
    id in Ids(After(history[..n]).streams)
  }

  /** Event `i` is an accepted acknowledgement by `id`, which has had a stream at
      every moment since. */
  ghost predicate Counts(history: seq<Event>, i: int, id: Id, key: Key) {
    && 0 <= i < |history|
    && history[i].Acknowledge?
    && history[i].id == id && history[i].key == key
    && id != "" && key.name != "" && key.namespace != ""
    && forall n :: i <= n <= |history| ==> ConnectedAt(history, n, id)
  }

  /** The table never lists a forwarder that is not connected, and its entry is
      the maximum of zero and the revisions that count. */
  lemma {:induction false} AckTableIsMaximum(history: seq<Event>, id: Id, key: Key)
    ensures After(history).acks.Keys <= Ids(After(history).streams)
    ensures Acked(After(history).acks, id, key) >= 0
    ensures forall i :: Counts(history, i, id, key) ==> history[i].revision <= Acked(After(history).acks, id, key)
    ensures Acked(After(history).acks, id, key) == 0
            || exists i :: Counts(history, i, id, key) && history[i].revision == Acked(After(history).acks, id, key)
  {
    assert history[..|history|] == history;
    if history != [] {
      var n := |history| - 1;
      var before := history[..n];
      AckTableIsMaximum(before, id, key);
      CountsStep(history, id, key);
      var s, e := After(before), history[n];
      assert After(history) == Handle(s, e);
      IdsStep(s, e);
      EntryStep(history, id, key);
    }
  }

  /** An entry that is not zero stands for an event that counts, if the entry before the last
      event did. */
  lemma EntryStep(history: seq<Event>, id: Id, key: Key)
    requires history != []
    requires var before := history[..|history| - 1];
             && After(before).acks.Keys <= Ids(After(before).streams)
             && (Acked(After(before).acks, id, key) == 0 || EntryCounts(before, id, key))
    ensures Acked(After(history).acks, id, key) == 0 || EntryCounts(history, id, key)
  {
    var n := |history| - 1;
    var before, e := history[..n], history[n];
    var s := After(before);
    var v := Acked(After(history).acks, id, key);
    assert history[..|history|] == history;
    IdsStep(s, e);
    CountsStep(history, id, key);
    if v != 0 {
      assert id in After(history).acks;
      if v == Acked(s.acks, id, key) {
        var i :| Counts(before, i, id, key) && before[i].revision == v;
        assert Counts(history, i, id, key);
      } else {
        assert Counts(history, n, id, key);
      }
    }
  }

  /** The entry is the revision of an event that counts. */
  ghost predicate EntryCounts(history: seq<Event>, id: Id, key: Key) {
    exists i :: Counts(history, i, id, key) && history[i].revision == Acked(After(history).acks, id, key)
  }

  /** How an event changes who is connected: an acknowledgement does not. */
  lemma IdsStep(s: Server, e: Event)
    requires s.acks.Keys <= Ids(s.streams)
    ensures Handle(s, e).acks.Keys <= Ids(Handle(s, e).streams)
    ensures e.Connect? ==> Ids(s.streams) <= Ids(Handle(s, e).streams)
    ensures e.Acknowledge? ==> Ids(s.streams) == Ids(Handle(s, e).streams)
  {
    if e.Connect? && e.ref !in s.streams {
      var streams' := Handle(s, e).streams;
      forall i | i in Ids(s.streams)
        ensures i in Ids(streams')
      {
        var r :| r in s.streams && s.streams[r].id == i;
        assert streams'[r].id == i;
      }
    } else if e.Disconnect? && e.ref in s.streams {
      var rest := s.streams - {e.ref};
      forall i | i in Ids(s.streams) && i != s.streams[e.ref].id
        ensures i in Ids(rest)
      {
        var r :| r in s.streams && s.streams[r].id == i;
        assert rest[r].id == i;
      }
    }
  }

  /** What counts after one more event: what counted before if the forwarder is
      still connected, and the event itself if it is an accepted acknowledgement. */
  lemma CountsStep(history: seq<Event>, id: Id, key: Key)
    requires history != []
    ensures var n := |history| - 1;
            forall i :: 0 <= i < n ==>
                          (Counts(history, i, id, key) <==> Counts(history[..n], i, id, key) && ConnectedAt(history, n + 1, id))
    ensures forall i :: Counts(history, i, id, key) ==> ConnectedAt(history, |history| - 1, id)
  {
    var n := |history| - 1;
    assert forall m :: 0 <= m <= n ==> history[..n][..m] == history[..m];
    assert forall m :: 0 <= m <= n ==> (ConnectedAt(history[..n], m, id) <==> ConnectedAt(history, m, id));
  }
}
