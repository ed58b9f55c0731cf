/** Values shared by the operator and the forwarders: tunnels as the API server
    stores them, gateway pods, and the messages of the forwarder config service. */
module TunnelTypes {

  newtype int32 = x: int | -0x8000_0000 <= x < 0x8000_0000

  datatype Option<+T> = None | Some(value: T)

  /** A tunnel's namespace and name. */
  datatype Key = Key(namespace: string, name: string)

  datatype Phase = Unset | Pending | Provisioning | Ready | Connected | Failed | Terminated

  datatype Message =
    | NoMessage
    | GatewayPodFailed
    | GatewayTerminated
    | GatewayPodStarting
    | WaitingForAcks
    | GatewayReady

  datatype Status = Status(
    phase: Phase,
    message: Message,
    publicKey: string,
    port: int32,
    endpoint: string,
    podName: string,
    podUid: string,
    podIp: string,
    revision: int)

  /** The status of a tunnel that no reconcile has touched. */
  const EMPTY_STATUS := Status(Unset, NoMessage, "", 0, "", "", "", "", 0)

  /** A tunnel object: `finalizer` says whether the operator's finalizer is present. */
  datatype Tunnel = Tunnel(deleting: bool, finalizer: bool, status: Status)

  datatype PodPhase = PodPending | PodRunning | PodSucceeded | PodFailed | PodUnknown

  datatype Condition = Condition(kind: string, holds: bool)

  datatype Pod = Pod(uid: string, ip: string, phase: PodPhase, conditions: seq<Condition>)

  datatype Mapping = Mapping(key: Key, port: int32, gateway: string, revision: int)

  datatype UpdateKind = Added | Modified | Deleted

  datatype Update = Update(kind: UpdateKind, mapping: Mapping)

  /** The key the source builds for its maps. */
  function TunnelKey(k: Key): string {
    k.namespace + "/" + k.name
  }

  function GatewayResourceName(name: string): string {
    "tunnel-gateway-" + name
  }

  /** Joins a host and a port; a host with a colon is bracketed. */
  function JoinHostPort(host: string, port: string): (r: string)
    ensures r != ""
  {
    if ':' in host then "[" + host + "]:" + port else host + ":" + port
  }

  function GatewayAddress(ip: string): (r: string)
    ensures r != ""
  {
    JoinHostPort(ip, "51820")
  }

  /** The mapping a tunnel's status stands for. */
  function MappingOf(k: Key, st: Status): Mapping {
    Mapping(k, st.port, GatewayAddress(st.podIp), st.revision)
  }

  /** The filter a tunnel passes to appear in a configuration snapshot. */
  predicate Eligible(t: Tunnel) {
    && !t.deleting
    && t.status.phase != Terminated
    && t.status.phase != Failed
    && t.status.port > 0
    && t.status.podIp != ""
    && t.status.publicKey != ""
  }

  /** Whether the pod's first `Ready` condition holds. */
  function IsPodReady(conditions: seq<Condition>): bool {
    if conditions == [] then false
    else if conditions[0].kind == "Ready" then conditions[0].holds
    else IsPodReady(conditions[1..])
  }

  /** Namespaces are DNS labels, so they hold no slash and the string keys of two
      tunnels are equal only when the tunnels are. */
  lemma TunnelKeyInjective(a: Key, b: Key)
    requires '/' !in a.namespace && '/' !in b.namespace
    ensures TunnelKey(a) == TunnelKey(b) <==> a == b
  {
    if TunnelKey(a) == TunnelKey(b) {
      FirstSlash(a);
      FirstSlash(b);
      var n := |a.namespace|;
      assert |b.namespace| == n;
      assert a.namespace == TunnelKey(a)[..n] && b.namespace == TunnelKey(b)[..n];
      assert a.name == TunnelKey(a)[n + 1..] && b.name == TunnelKey(b)[n + 1..];
    }
  }

  lemma FirstSlash(k: Key)
    requires '/' !in k.namespace
    ensures TunnelKey(k)[|k.namespace|] == '/'
    ensures forall i :: 0 <= i < |k.namespace| ==> TunnelKey(k)[i] != '/'
  {
    assert forall i :: 0 <= i < |k.namespace| ==> TunnelKey(k)[i] == k.namespace[i];
  }

  /** A gateway listens at its pod's address on port 51820; an address with colons is
      bracketed. */
  lemma GatewayAddressIs(ip: string)
    ensures GatewayAddress(ip) == if ':' in ip then "[" + ip + "]:51820" else ip + ":51820"
  {
  }

  /** Only a bracketed address starts with a bracket. */
  lemma BracketedIff(ip: string)
    requires '[' !in ip
    ensures GatewayAddress(ip)[0] == '[' <==> ':' in ip
  {
    if ':' !in ip {
      assert GatewayAddress(ip)[0] == if ip == [] then ':' else ip[0];
    }
  }

  /** Different pod addresses give different gateways. */
  lemma GatewayAddressInjective(a: string, b: string)
    requires '[' !in a && '[' !in b
    ensures GatewayAddress(a) == GatewayAddress(b) <==> a == b
  {
    BracketedIff(a);
    BracketedIff(b);
    var g, h := GatewayAddress(a), GatewayAddress(b);
    if g == h {
      assert a == if ':' in a then g[1..|g| - 7] else g[..|g| - 6];
      assert b == if ':' in b then h[1..|h| - 7] else h[..|h| - 6];
    }
  }

  /** Different tunnels of a namespace have differently named gateway pods. */
  lemma GatewayResourceNameInjective(a: string, b: string)
    ensures GatewayResourceName(a) == GatewayResourceName(b) <==> a == b
  {
    assert GatewayResourceName(a)[15..] == a && GatewayResourceName(b)[15..] == b;
  }

  /** The first condition of kind `Ready` says that the pod is ready. */
  ghost predicate SaysReady(conditions: seq<Condition>) {
    exists i :: 0 <= i < |conditions| && conditions[i] == Condition("Ready", true) && forall j :: 0 <= j < i ==> conditions[j].kind != "Ready"
  }

  lemma SaysReadyRest(conditions: seq<Condition>)
    requires conditions != [] && conditions[0].kind != "Ready"
    ensures SaysReady(conditions) <==> SaysReady(conditions[1..])
  {
    var rest := conditions[1..];
    assert forall i :: 0 <= i < |rest| ==> rest[i] == conditions[i + 1];
    if i :| 0 <= i < |rest| && rest[i] == Condition("Ready", true) && forall j :: 0 <= j < i ==> rest[j].kind != "Ready" {
      assert conditions[i + 1] == Condition("Ready", true);
      assert forall j :: 0 < j < i + 1 ==> conditions[j] == rest[j - 1];
    }
    if i :| 0 <= i < |conditions| && conditions[i] == Condition("Ready", true) && forall j :: 0 <= j < i ==> conditions[j].kind != "Ready" {
      assert rest[i - 1] == Condition("Ready", true);
    }
  }

  lemma {:induction false} IsPodReadyIff(conditions: seq<Condition>)
    ensures IsPodReady(conditions) <==> SaysReady(conditions)
  {
    if conditions == [] {
    } else if conditions[0].kind == "Ready" {
      assert conditions[0].holds ==> conditions[0] == Condition("Ready", true);
    } else {
      SaysReadyRest(conditions);
      IsPodReadyIff(conditions[1..]);
    }
  }
}
