/** The forwarder port allocator: two maps that are each other's inverse, a
    wraparound scan from a random start, and recovery of persisted ports. */
module PortAlloc {
  import opened TunnelTypes

  const DEFAULT_MIN_PORT: int32 := 10000
  const DEFAULT_MAX_PORT: int32 := 60000

  /** The allocator's state as a value. */
  datatype Alloc = Alloc(minPort: int32, maxPort: int32, allocations: map<Key, int32>, used: map<int32, Key>) {
    predicate InRange(p: int32) {
      minPort <= p <= maxPort
    }

    predicate Holds(k: Key, p: int32) {
      k in allocations && allocations[k] == p
    }

    function RangeSize(): int {
      maxPort as int - minPort as int + 1
    }

    ghost predicate Valid() {
      && 0 < minPort <= maxPort
      && (forall k :: k in allocations ==> InRange(allocations[k]) && allocations[k] in used && used[allocations[k]] == k)
      && (forall p :: p in used ==> used[p] in allocations && allocations[used[p]] == p)
    }

    /** The port the scan looks at after `offset` steps from `start`. */
    function Probe(start: int, offset: int): (p: int32)
      requires Valid() && 0 <= start < RangeSize() && 0 <= offset < RangeSize()
      ensures InRange(p)
    {
      minPort + ((start + offset) % RangeSize()) as int32
    }

    /** The first unused port the scan meets from `offset` on. */
    function FirstFree(start: int, offset: int): (r: Option<int32>)
      requires Valid() && 0 <= start < RangeSize() && 0 <= offset <= RangeSize()
      ensures r.Some? ==> InRange(r.value) && r.value !in used
      ensures r.None? ==> forall j :: offset <= j < RangeSize() ==> Probe(start, j) in used
      decreases RangeSize() - offset
    {
      if offset == RangeSize() then None
      else
        var p := Probe(start, offset);
        if p in used then FirstFree(start, offset + 1) else Some(p)
    }

    /** Allocation for a key: its existing port, or the first free one of the scan. */
    function Allocate(k: Key, start: int): (r: (Alloc, Option<int32>))
      requires Valid() && 0 <= start < RangeSize()
      ensures r.0.Valid()
      ensures r.1.Some? ==> k in r.0.allocations && r.0.allocations[k] == r.1.value
      ensures r.1.None? ==> r.0 == this && k !in allocations
    {
      if k in allocations then (this, Some(allocations[k]))
      else
        match FirstFree(start, 0)
        case Some(p) => (this.(allocations := allocations[k := p], used := used[p := k]), Some(p))
        case None => (this, None)
    }

    function Release(k: Key): (r: Alloc)
      requires Valid()
      ensures r.Valid()
      ensures r.allocations == allocations - {k}
    {
      if k in allocations then
        this.(allocations := allocations - {k}, used := used - {allocations[k]})
      else this
    }

    /** Some other key has the port. */
    predicate Taken(k: Key, p: int32) {
      p in used && used[p] != k
    }

    function LoadExisting(k: Key, p: int32): (r: Alloc)
      requires Valid()
      ensures r.Valid()
      ensures r.minPort == minPort && r.maxPort == maxPort
      ensures r.Holds(k, p) <==> InRange(p) && !Taken(k, p)
      ensures !r.Holds(k, p) ==> r == this
      ensures forall j, q :: j != k ==> (r.Holds(j, q) <==> Holds(j, q))
    {
      if !InRange(p) then this
      else if Taken(k, p) then this
      else
        var freed := if k in allocations && allocations[k] != p then used - {allocations[k]} else used;
        this.(allocations := allocations[k := p], used := freed[p := k])
    }
  }

  /** The configured range, with the defaults replacing unusable bounds. */
  function Bounds(minPort: int32, maxPort: int32): (r: (int32, int32))
    ensures 0 < r.0 <= r.1
    ensures 0 < minPort <= maxPort ==> r == (minPort, maxPort)
    ensures minPort <= 0 && maxPort >= 10000 ==> r == (10000, maxPort)
    ensures 0 < minPort <= 60000 && maxPort <= 0 ==> r == (minPort, 60000)
    ensures minPort <= 0 && maxPort < 10000 ==> r == (10000, 60000)
    ensures (minPort > 60000 && maxPort <= 0) || 0 < maxPort < minPort ==> r == (10000, 60000)
  {
    var lo := if minPort <= 0 then DEFAULT_MIN_PORT else minPort;
    var hi := if maxPort <= 0 then DEFAULT_MAX_PORT else maxPort;
    if hi < lo then (DEFAULT_MIN_PORT, DEFAULT_MAX_PORT) else (lo, hi)
  }

  function NewAlloc(minPort: int32, maxPort: int32): (a: Alloc)
    ensures a.Valid()
  {
    var (lo, hi) := Bounds(minPort, maxPort);
    Alloc(lo, hi, map[], map[])
  }

  // ---------------------------------------------------------------- the scan

  /** From every start the scan passes over each port of the range exactly once. */
  lemma ProbeVisitsEachPortOnce(a: Alloc, start: int, p: int32)
    requires a.Valid() && 0 <= start < a.RangeSize() && a.InRange(p)
    ensures exists j :: 0 <= j < a.RangeSize() && a.Probe(start, j) == p
    ensures forall i, j :: 0 <= i < a.RangeSize() && 0 <= j < a.RangeSize() && a.Probe(start, i) == p && a.Probe(start, j) == p
                           ==> i == j
  {
    var n := a.RangeSize();
    var d := p as int - a.minPort as int;
    var j := if d >= start then d - start else d - start + n;
    forall i | 0 <= i < n
      ensures a.Probe(start, i) == p <==> i == j
    {
      assert (start + i) % n == if start + i < n then start + i else start + i - n by {
        WrapOnce(start + i, n);
      }
    }
    assert a.Probe(start, j) == p;
  }

  /** The scan starts at the drawn port and goes up, from the last port to the first. */
  lemma ProbeGoesUp(a: Alloc, start: int, offset: int)
    requires a.Valid() && 0 <= start < a.RangeSize() && 0 <= offset < a.RangeSize()
    ensures a.Probe(start, offset) as int ==
            if offset == 0 then a.minPort as int + start
            else if a.Probe(start, offset - 1) == a.maxPort then a.minPort as int
            else a.Probe(start, offset - 1) as int + 1
  {
    var n := a.RangeSize();
    WrapOnce(start + offset, n);
    if offset > 0 {
      WrapOnce(start + offset - 1, n);
    }
  }

  /** The port at `offset` of the scan is free, and all before it are in use. */
  ghost predicate FirstFreeAt(a: Alloc, start: int, offset: int)
    requires a.Valid() && 0 <= start < a.RangeSize()
  {
    && 0 <= offset < a.RangeSize() && a.Probe(start, offset) !in a.used
    && forall j :: 0 <= j < offset ==> a.Probe(start, j) in a.used
  }

  lemma {:induction false} FirstFreeFound(a: Alloc, start: int, offset: int)
    requires a.Valid() && 0 <= start < a.RangeSize() && 0 <= offset <= a.RangeSize()
    requires forall j :: 0 <= j < offset ==> a.Probe(start, j) in a.used
    requires a.FirstFree(start, offset).Some?
    ensures exists i :: FirstFreeAt(a, start, i) && a.Probe(start, i) == a.FirstFree(start, offset).value
    decreases a.RangeSize() - offset
  {
    if a.Probe(start, offset) in a.used {
      FirstFreeFound(a, start, offset + 1);
    } else {
      assert FirstFreeAt(a, start, offset);
    }
  }

  /** A new key gets the first free port of the scan. */
  lemma AllocateTakesFirstFree(a: Alloc, k: Key, start: int)
    requires a.Valid() && 0 <= start < a.RangeSize() && k !in a.allocations && a.Allocate(k, start).1.Some?
    ensures exists i :: FirstFreeAt(a, start, i) && a.Allocate(k, start).1 == Some(a.Probe(start, i))
  {
    FirstFreeFound(a, start, 0);
  }

  lemma WrapOnce(x: int, n: int)
    requires 0 <= x < 2 * n
    ensures x % n == if x < n then x else x - n
  {
    if x >= n {
      assert x % n == (x - n) % n by {
        assert x == (x - n) + n * 1;
      }
    }
  }

  /** A key that holds no port gets one exactly when some port of the range is
      free, that is, when fewer keys are allocated than the range has ports; the
      port was unused, and every other key keeps its port. */
  lemma AllocateCompleteness(a: Alloc, k: Key, start: int)
    requires a.Valid() && 0 <= start < a.RangeSize()
    ensures k in a.allocations ==> a.Allocate(k, start) == (a, Some(a.allocations[k]))
    ensures |a.allocations| <= a.RangeSize()
    ensures k !in a.allocations ==> (a.Allocate(k, start).1.None? <==> |a.allocations| == a.RangeSize())
    ensures var (a', r) := a.Allocate(k, start);
            k !in a.allocations && r.Some? ==>
              a.InRange(r.value) && r.value !in a.used && a'.allocations == a.allocations[k := r.value]
  {
    var range := PortsUpTo(a.minPort, a.maxPort);
    InverseSizes(a.allocations, a.used);
    assert a.used.Keys <= range;
    SubsetSize(a.used.Keys, range);
    if k !in a.allocations {
      if a.FirstFree(start, 0).None? {
        forall p | p in range
          ensures p in a.used
        {
          ProbeVisitsEachPortOnce(a, start, p);
        }
        assert a.used.Keys == range;
      } else {
        var p := a.FirstFree(start, 0).value;
        assert p in range - a.used.Keys;
      }
    }
  }

  ghost function PortsUpTo(lo: int32, hi: int32): (s: set<int32>)
    requires 0 < lo <= hi
    ensures forall p :: p in s <==> lo <= p <= hi
    ensures |s| == hi as int - lo as int + 1
    decreases hi
  {
    if lo == hi then {lo} else PortsUpTo(lo, hi - 1) + {hi}
  }

  lemma SubsetSize<T>(s: set<T>, t: set<T>)
    requires s <= t
    ensures |s| <= |t|
    ensures s != t ==> |s| < |t|
  {
    assert t == s + (t - s);
  }

  lemma {:induction false} InverseSizes(m: map<Key, int32>, n: map<int32, Key>)
    requires forall k :: k in m ==> m[k] in n && n[m[k]] == k
    requires forall p :: p in n ==> n[p] in m && m[n[p]] == p
    ensures |m| == |n|
    decreases |m|
  {
    if m == map[] {
      assert n.Keys == {} by {
        if p :| p in n.Keys {
          assert n[p] in m;
        }
      }
    } else {
      var k :| k in m;
      assert (m - {k}).Keys == m.Keys - {k};
      assert (n - {m[k]}).Keys == n.Keys - {m[k]};
      InverseSizes(m - {k}, n - {m[k]});
    }
  }

  // ---------------------------------------------------------------- recovery

  /** A persisted status as recovery sees it. */
  datatype Claim = Claim(key: Key, port: int32)

  /** Loads the claims in list order, skipping those without a port. */
  function LoadAll(a: Alloc, claims: seq<Claim>): (r: Alloc)
    requires a.Valid()
    ensures r.Valid()
    ensures r.minPort == a.minPort && r.maxPort == a.maxPort
  {
    if claims == [] then a
    else
      var before := LoadAll(a, claims[..|claims| - 1]);
      var c := claims[|claims| - 1];
      if c.port <= 0 then before else before.LoadExisting(c.key, c.port)
  }

  ghost predicate DistinctKeys(claims: seq<Claim>) {
    forall i, j :: 0 <= i < j < |claims| ==> claims[i].key != claims[j].key
  }

  ghost predicate DistinctPorts(claims: seq<Claim>) {
    forall i, j :: 0 <= i < j < |claims| && claims[i].port > 0 ==> claims[i].port != claims[j].port
  }

  /** Claim `i` gets its port: it is in range and no earlier claim asks for it. */
  ghost predicate Wins(a: Alloc, claims: seq<Claim>, i: int) {
    && 0 <= i < |claims|
    && a.InRange(claims[i].port)
    && forall j :: 0 <= j < i ==> claims[j].port != claims[i].port
  }

  ghost predicate Won(a: Alloc, claims: seq<Claim>, k: Key, p: int32) {
    exists i :: Wins(a, claims, i) && claims[i] == Claim(k, p)
  }

  /** After a restart a key holds exactly the port of its winning claim: with
      conflicting claims the first listed key keeps the port. */
  lemma {:induction false} RecoveryFirstListedWins(minPort: int32, maxPort: int32, claims: seq<Claim>)
    requires DistinctKeys(claims)
    ensures var a := NewAlloc(minPort, maxPort);
            forall k, p :: LoadAll(a, claims).Holds(k, p) <==> Won(a, claims, k, p)
  {
    var a := NewAlloc(minPort, maxPort);
    if claims != [] {
      var n := |claims| - 1;
      var before := claims[..n];
      RecoveryFirstListedWins(minPort, maxPort, before);
      var mid := LoadAll(a, before);
      var c := claims[n];
      assert forall i :: 0 <= i < n ==> (Wins(a, claims, i) <==> Wins(a, before, i));
      assert c.key !in mid.allocations by {
        assert forall i :: 0 <= i < n ==> before[i].key != c.key;
        assert !Won(a, before, c.key, if c.key in mid.allocations then mid.allocations[c.key] else 0);
        assert mid.Holds(c.key, if c.key in mid.allocations then mid.allocations[c.key] else 0) <==> c.key in mid.allocations;
      }
      PortTakenIffClaimed(a, before, mid, c.port);
      forall k, p
        ensures LoadAll(a, claims).Holds(k, p) <==> Won(a, claims, k, p)
      {
        assert Won(a, claims, k, p) <==> Won(a, before, k, p) || (Wins(a, claims, n) && c == Claim(k, p));
        assert mid.Holds(k, p) <==> Won(a, before, k, p);
      }
    }
  }

  /** In range, a port is in use after loading exactly when some claim asked for it. */
  lemma PortTakenIffClaimed(a: Alloc, claims: seq<Claim>, loaded: Alloc, p: int32)
    requires a.Valid() && loaded.Valid()
    requires forall k, q :: loaded.Holds(k, q) <==> Won(a, claims, k, q)
    ensures a.InRange(p) ==> (p in loaded.used <==> exists i :: 0 <= i < |claims| && claims[i].port == p)
  {
    if a.InRange(p) && p in loaded.used {
      assert loaded.Holds(loaded.used[p], p);
      assert Won(a, claims, loaded.used[p], p);
    }
    if a.InRange(p) && exists i :: 0 <= i < |claims| && claims[i].port == p {
      var i := FirstClaim(claims, p);
      assert Wins(a, claims, i) && claims[i] == Claim(claims[i].key, p);
      assert loaded.Holds(claims[i].key, p);
    }
  }

  ghost function FirstClaim(claims: seq<Claim>, p: int32): (i: int)
    requires exists i :: 0 <= i < |claims| && claims[i].port == p
    ensures 0 <= i < |claims| && claims[i].port == p
    ensures forall j :: 0 <= j < i ==> claims[j].port != p
  {
    if claims[0].port == p then 0
    else
      var k :| 0 <= k < |claims| && claims[k].port == p;
      assert claims[1..][k - 1].port == p;
      1 + FirstClaim(claims[1..], p)
  }

  /** With distinct persisted ports, recovery in any list order rebuilds exactly the
      persisted in-range allocations. */
  lemma RecoveryRebuilds(minPort: int32, maxPort: int32, claims: seq<Claim>)
    requires DistinctKeys(claims) && DistinctPorts(claims)
    ensures var a := NewAlloc(minPort, maxPort);
            forall k, p :: LoadAll(a, claims).Holds(k, p) <==> (Claim(k, p) in claims && a.InRange(p))
  {
    var a := NewAlloc(minPort, maxPort);
    RecoveryFirstListedWins(minPort, maxPort, claims);
    assert forall i :: 0 <= i < |claims| && a.InRange(claims[i].port) ==> Wins(a, claims, i);
    assert forall k, p :: Won(a, claims, k, p) <==> (Claim(k, p) in claims && a.InRange(p));
  }

  /** Loading what the allocator already holds, or a port out of range, changes nothing. */
  lemma LoadHeldIsNoop(a: Alloc, k: Key, p: int32)
    requires a.Valid()
    requires a.InRange(p) ==> k in a.allocations && a.allocations[k] == p
    ensures a.LoadExisting(k, p) == a
  {
    if a.InRange(p) {
      assert a.allocations[k := p] == a.allocations && a.used[p := k] == a.used;
    }
  }

  // ---------------------------------------------------------------- the object

  class PortAllocator {
    const minPort: int32
    const maxPort: int32
    var allocations: map<Key, int32>
    var used: map<int32, Key>

    ghost function View(): Alloc
      reads this
    {
      Alloc(minPort, maxPort, allocations, used)
    }

    ghost predicate Valid()
      reads this
    {
      View().Valid()
    }

    constructor (minPort: int32, maxPort: int32)
      ensures Valid()
      ensures View() == NewAlloc(minPort, maxPort)
    {
      var lo, hi := minPort, maxPort;
      if lo <= 0 {
        lo := DEFAULT_MIN_PORT;
      }
      if hi <= 0 {
        hi := DEFAULT_MAX_PORT;
      }
      if hi < lo {
        lo, hi := DEFAULT_MIN_PORT, DEFAULT_MAX_PORT;
      }
      this.minPort, this.maxPort := lo, hi;
      allocations, used := map[], map[];
    }

    /** `start` is the random number drawn below the size of the range. All the
        arithmetic on ports is checked to stay within 32 bits. */
    method Allocate(key: Key, start: int) returns (r: Option<int32>)
      requires Valid() && 0 <= start < View().RangeSize()
      modifies this
      ensures Valid()
      ensures (View(), r) == old(View()).Allocate(key, start)
    {
      if key in allocations {
        return Some(allocations[key]);
      }
      var rangeSize := (maxPort - minPort) as int + 1;
      for offset := 0 to rangeSize
        invariant View() == old(View())
        invariant View().FirstFree(start, 0) == View().FirstFree(start, offset)
      {
        var port := minPort + ((start + offset) % rangeSize) as int32;
        assert port == View().Probe(start, offset);
        if port in used {
          continue;
        }
        allocations := allocations[key := port];
        used := used[port := key];
        return Some(port);
      }
      return None;
    }

    method Release(key: Key)
      requires Valid()
      modifies this
      ensures Valid()
      ensures View() == old(View()).Release(key)
    {
      if key !in allocations {
        return;
      }
      var port := allocations[key];
      allocations := allocations - {key};
      used := used - {port};
    }

    method LoadExisting(key: Key, port: int32)
      requires Valid()
      modifies this
      ensures Valid()
      ensures View() == old(View()).LoadExisting(key, port)
    {
      if port < minPort || port > maxPort {
        return;
      }
      if port in used && used[port] != key {
        return;
      }
      if key in allocations && allocations[key] != port {
        used := used - {allocations[key]};
      }
      allocations := allocations[key := port];
      used := used[port := key];
    }

    method IsAllocated(port: int32) returns (r: bool)
      requires Valid()
      ensures r <==> exists k :: k in allocations && allocations[k] == port
    {
      r := port in used;
      if r {
        assert allocations[used[port]] == port;
      }
    }

    method GetPort(key: Key) returns (r: Option<int32>)
      requires Valid()
      ensures r.None? <==> key !in used.Values
      ensures r.Some? ==> r.value in used && used[r.value] == key
    {
      r := if key in allocations then Some(allocations[key]) else None;
    }
  }

  /** Recovery at operator start: every listed tunnel with a port is loaded. */
  method LoadExistingAllocations(allocator: PortAllocator, claims: seq<Claim>)
    requires allocator.Valid()
    modifies allocator
    ensures allocator.Valid()
    ensures allocator.View() == LoadAll(old(allocator.View()), claims)
  {
    for i := 0 to |claims|
      invariant allocator.Valid()
      invariant allocator.View() == LoadAll(old(allocator.View()), claims[..i])
    {
      assert claims[..i + 1][..i] == claims[..i];
      if claims[i].port > 0 {
        allocator.LoadExisting(claims[i].key, claims[i].port);
      }
    }
    assert claims[..|claims|] == claims;
  }

  /** The claim's port is its key's or nobody's. */
  predicate Available(a: Alloc, c: Claim) {
    a.InRange(c.port) && !a.Taken(c.key, c.port)
  }

  /** Loading a list restores an allocation that is missing: a claim in range whose port no
      other key has is held afterwards. */
  lemma {:induction false} LoadAllRestores(a: Alloc, claims: seq<Claim>, i: nat)
    requires a.Valid() && DistinctKeys(claims) && DistinctPorts(claims)
    requires i < |claims| && claims[i].port > 0 && Available(a, claims[i])
    ensures LoadAll(a, claims).Holds(claims[i].key, claims[i].port)
    decreases |claims|
  {
    var n := |claims| - 1;
    var before, c := claims[..n], claims[n];
    if i < n {
      LoadAllRestores(a, before, i);
      assert before[i] == claims[i];
    } else {
      StaysAvailable(a, before, c);
    }
  }

  /** Claims of other keys on other ports leave a claim available. */
  lemma {:induction false} StaysAvailable(a: Alloc, claims: seq<Claim>, c: Claim)
    requires a.Valid() && c.port > 0 && Available(a, c)
    requires forall i :: 0 <= i < |claims| ==> claims[i].key != c.key && claims[i].port != c.port
    ensures Available(LoadAll(a, claims), c)
    decreases |claims|
  {
    if claims != [] {
      StaysAvailable(a, claims[..|claims| - 1], c);
    }
  }
}
