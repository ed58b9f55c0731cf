/** The forwarder's reaction to what the operator sends: single updates and whole
    snapshots, applied to the port table and acknowledged. */
module ForwarderClient {
  import opened TunnelTypes
  import opened UdpProxy

  predicate IsSpace(c: char) {
    c in {'\t', '\n', '\U{000B}', '\U{000C}', '\r', ' ', '\U{0085}', '\U{00A0}'}
  }

  /** Nothing is left of the string once surrounding white space is trimmed. */
  predicate Blank(s: string) {
    forall i :: 0 <= i < |s| ==> IsSpace(s[i])
  }

  /** White space only is blank; a string with a visible character is not. */
  lemma BlankCases(s: string)
    ensures Blank("") && Blank(" ") && Blank("\t\r\n ")
    ensures (exists i :: 0 <= i < |s| && '!' <= s[i] <= '~') ==> !Blank(s)
  {
  }

  predicate ValidUpdate(u: Update) {
    u.mapping.port > 0 && !Blank(u.mapping.gateway)
  }

  /** How an update was taken: not at all, applied, failed on its listen, or as a removal. */
  datatype Outcome = Ignored | Applied | NotApplied | Removed

  function HandleUpdate(t: Table, u: Update, listenOk: bool): (Table, Outcome) {
    var m := u.mapping;
    if m.port <= 0 then (t, Ignored)
    else if u.kind == Deleted then (t - {m.port}, Removed)
    else if Blank(m.gateway) then (t, Ignored)
    else
      var (t', ok) := Apply(t, m, listenOk);
      (t', if ok then Applied else NotApplied)
  }

  // ---------------------------------------------------------------- what an update leaves alone

  /** The update names no usable port, removes a port that is closed, has no gateway, is
      older than the entry of its own tunnel or repeats it, or fails on a closed port. */
  predicate NoEffect(t: Table, u: Update, listenOk: bool) {
    var m := u.mapping;
    || m.port <= 0
    || (u.kind == Deleted && m.port !in t)
    || (u.kind != Deleted && Blank(m.gateway))
    || (u.kind != Deleted && m.port in t && (Newer(Some(t[m.port]), m) || t[m.port] == EntryOf(m)))
    || (u.kind != Deleted && m.port !in t && !listenOk)
  }

  /** Exactly when taking an update leaves the table as it is. */
  lemma NoEffectIff(t: Table, u: Update, listenOk: bool)
    ensures HandleUpdate(t, u, listenOk).0 == t <==> NoEffect(t, u, listenOk)
  {
    var m, t' := u.mapping, HandleUpdate(t, u, listenOk).0;
    if NoEffect(t, u, listenOk) {
      assert forall p :: Lookup(t', p) == Lookup(t, p);
      assert t' == t;
    } else {
      assert Lookup(t', m.port) != Lookup(t, m.port);
    }
  }

  /** Revisions make an older update harmless exactly for mappings of the same tunnel: on
      a port that another tunnel has by now, or as a deletion, it takes effect. */
  lemma OlderHarmlessIff(t: Table, u: Update, listenOk: bool)
    requires ValidUpdate(u) && u.mapping.port in t && u.mapping.revision < t[u.mapping.port].revision
    ensures HandleUpdate(t, u, listenOk).0 == t <==> u.kind != Deleted && t[u.mapping.port].key == u.mapping.key
  {
    NoEffectIff(t, u, listenOk);
  }

  /** A port that serves one tunnel at revision 5 is taken over by a stale update of the
      tunnel that had the port before. */
  lemma StaleUpdateTakesPort(listenOk: bool)
    ensures var j, k := Key("team", "old"), Key("team", "new");
            var t: Table := map[51820 := Entry(k, "10.0.0.2:51820", 5)];
            var stale := Mapping(j, 51820, "10.0.0.1:51820", 2);
            HandleUpdate(t, Update(Modified, stale), listenOk).0 == if listenOk then map[51820 := EntryOf(stale)] else map[]
  {
    var j, k := Key("team", "old"), Key("team", "new");
    var t: Table := map[51820 := Entry(k, "10.0.0.2:51820", 5)];
    var stale := Mapping(j, 51820, "10.0.0.1:51820", 2);
    assert j.name[0] == 'o' && k.name[0] == 'n';
    assert stale.gateway[0] == '1' && !IsSpace(stale.gateway[0]);
    assert t - {51820} == map[];
    assert t[51820 := EntryOf(stale)] == map[51820 := EntryOf(stale)];
  }

  // ---------------------------------------------------------------- lists of updates

  /** Takes a list of updates with every listen succeeding. */
  function Drain(t: Table, us: seq<Update>): Table {
    if us == [] then t else HandleUpdate(Drain(t, us[..|us| - 1]), us[|us| - 1], true).0
  }

  /** The last update of the list that concerns a port. */
  function LastOn(us: seq<Update>, p: int32): Option<Update> {
    if us == [] then None
    else if us[|us| - 1].mapping.port == p then Some(us[|us| - 1])
    else LastOn(us[..|us| - 1], p)
  }

  lemma LastOnAppend(us: seq<Update>, u: Update, p: int32)
    ensures LastOn(us + [u], p) == if u.mapping.port == p then Some(u) else LastOn(us, p)
  {
    assert (us + [u])[..|us|] == us;
  }

  lemma {:induction false} LastOnConcat(us: seq<Update>, vs: seq<Update>, p: int32)
    ensures LastOn(us + vs, p) == if LastOn(vs, p).Some? then LastOn(vs, p) else LastOn(us, p)
    decreases |vs|
  {
    if vs == [] {
      assert us + vs == us;
    } else {
      var n := |vs| - 1;
      assert us + vs == us + vs[..n] + [vs[n]];
      LastOnAppend(us + vs[..n], vs[n], p);
      LastOnConcat(us, vs[..n], p);
    }
  }

  lemma LastOnHead(us: seq<Update>, p: int32)
    requires us != []
    ensures LastOn(us, p) ==
            if LastOn(us[1..], p).Some? then LastOn(us[1..], p)
            else if us[0].mapping.port == p then Some(us[0]) else None
  {
    assert us == [us[0]] + us[1..];
    LastOnConcat([us[0]], us[1..], p);
    assert [us[0]][..0] == [];
  }

  lemma {:induction false} LastOnMember(us: seq<Update>, p: int32)
    ensures LastOn(us, p).Some? ==> LastOn(us, p).value in us && LastOn(us, p).value.mapping.port == p
    ensures LastOn(us, p).None? ==> forall i :: 0 <= i < |us| ==> us[i].mapping.port != p
  {
    if us != [] {
      LastOnMember(us[..|us| - 1], p);
    }
  }

  // ---------------------------------------------------------------- what a drained table holds

  /** Every entry comes from the given mappings. */
  ghost predicate TableFrom(t: Table, ms: set<Mapping>) {
    forall p :: p in t ==> Mapping(t[p].key, p, t[p].gateway, t[p].revision) in ms
  }

  /** Every update that can create an entry carries one of the given mappings. */
  ghost predicate UpdatesFrom(us: seq<Update>, ms: set<Mapping>) {
    forall i :: 0 <= i < |us| && us[i].kind != Deleted ==> us[i].mapping in ms
  }

  lemma HandleFrom(t: Table, u: Update, listenOk: bool, ms: set<Mapping>)
    requires TableFrom(t, ms) && (u.kind != Deleted ==> u.mapping in ms)
    ensures TableFrom(HandleUpdate(t, u, listenOk).0, ms)
  {
  }

  lemma {:induction false} DrainFrom(t: Table, us: seq<Update>, ms: set<Mapping>)
    requires TableFrom(t, ms) && UpdatesFrom(us, ms)
    ensures TableFrom(Drain(t, us), ms)
  {
    if us != [] {
      DrainFrom(t, us[..|us| - 1], ms);
      HandleFrom(Drain(t, us[..|us| - 1]), us[|us| - 1], true, ms);
    }
  }

  lemma HandleElsewhere(t: Table, u: Update, listenOk: bool, p: int32)
    requires u.mapping.port != p
    ensures Lookup(HandleUpdate(t, u, listenOk).0, p) == Lookup(t, p)
  {
  }

  /** After draining, a port no update names is as it was; a port whose last
      update deletes is empty; and a port whose last update applies a mapping no
      older than any known of its tunnel holds that mapping. */
  lemma {:induction false} DrainedPort(t: Table, us: seq<Update>, p: int32, ms: set<Mapping>)
    requires TableFrom(t, ms) && UpdatesFrom(us, ms)
    requires LastOn(us, p).Some? ==> ValidUpdate(LastOn(us, p).value)
    ensures LastOn(us, p).None? ==> Lookup(Drain(t, us), p) == Lookup(t, p)
    ensures LastOn(us, p).Some? && LastOn(us, p).value.kind == Deleted ==> Lookup(Drain(t, us), p) == None
    ensures LastOn(us, p).Some? && LastOn(us, p).value.kind != Deleted ==>
              var m := LastOn(us, p).value.mapping;
              && Lookup(Drain(t, us), p).Some?
              && Lookup(Drain(t, us), p).value.key == m.key
              && ((forall m' :: m' in ms && m'.key == m.key ==> m'.revision <= m.revision)
                  ==> Lookup(Drain(t, us), p) == Some(EntryOf(m)))
    decreases |us|
  {
    if us != [] {
      var n := |us| - 1;
      var u := us[n];
      var before := Drain(t, us[..n]);
      if u.mapping.port == p {
        DrainFrom(t, us[..n], ms);
        if p in before {
          assert Mapping(before[p].key, p, before[p].gateway, before[p].revision) in ms;
        }
      } else {
        DrainedPort(t, us[..n], p, ms);
        HandleElsewhere(before, u, true, p);
      }
    }
  }
}
