# Port mapping distribution in the tunnel operator, in Dafny

The tunnel operator gives every `Tunnel` a UDP port on the forwarders and keeps the
forwarders' port tables in step with the gateways. This project models that
distribution protocol and proves what it guarantees.

- The **operator** reconciles tunnels: it allocates a forwarder port, watches the
  gateway pod, persists a mapping revision in the tunnel's status and only then
  publishes the mapping. A tunnel becomes Ready when every connected forwarder has
  acknowledged its revision.
- The **forwarder service** keeps one bounded queue per registered stream and a table
  of acknowledgements. A stream whose queue overflows must be opened again.
- A **forwarder** registers a stream, waits for its barrier message, fetches a
  snapshot, reconciles its port table, and then takes the queued updates, using
  revisions to skip old ones.

## Layout

| file | content |
|---|---|
| `TunnelTypes.dfy` | tunnels, pods, mappings, updates, the snapshot filter |
| `PortAllocator.dfy` | the port allocator, its scan, and recovery after a restart |
| `UdpProxy.dfy` | the forwarder's port table: replay, snapshots, failed listens |
| `Sessions.dfy`, `SessionRuns.dfy` | a listener's session map, and its goroutines as interleaved steps |
| `ForwarderServer.dfy`, `AckHistory.dfy` | streams, queues, acknowledgements, snapshots; the acknowledgement table against its history |
| `Reconciler.dfy`, `TunnelController.dfy` | one reconcile as a function, and as the step-by-step program proved equal to it |
| `ReconcileFacts.dfy`, `StatusRuns.dfy` | what one reconcile does, to the stored objects and to a tunnel's status |
| `ForwarderClient.dfy`, `ForwarderProcess.dfy`, `ClientSteps.dfy` | how a forwarder takes updates and snapshots; its watch loop; the loop as steps of the state machine |
| `Protocol.dfy` | the whole system as a state machine |
| `PortSafety.dfy`, `Exposure.dfy`, `Delivery.dfy`, `Convergence.dfy`, `Invariant.dfy` | the inductive invariant, part by part, and its proof for all steps |
| `Guarantees.dfy`, `History.dfy`, `KeySafety.dfy` | the guarantees for every state and every pair of states of every run |
| `Scenarios.dfy` | runs that reach what the guarantees leave open |
| `Assumptions.dfy` | what goes wrong without the assumptions below |

The functions of `PortAllocator`, `UdpProxy`, `ForwarderServer`, `Reconciler` and
`ForwarderClient` are what the state machine is made of. The classes beside them
follow the program's mutable objects and loops, and each of their methods is proved
to compute exactly those functions.

## The main results

`Guarantees` and `History` speak about every run of the state machine: any number of
tunnels, streams and forwarders; any interleaving; failing API calls at any point of a
reconcile; operator restarts with any port range; forwarder restarts; acknowledgements
that are late, repeated or lost; listens that fail.

- `Converges`: take a forwarder whose stream is registered and has not overflowed. Apply
  its outstanding snapshot and drain its stream, and the port of every eligible tunnel
  forwards to that tunnel's current gateway at its current revision, exactly unless the
  port waits for the retry of a failed listen; no port forwards for a tunnel that does
  not own it. `RetryMissingIff` says when a retry comes: a reconcile publishes one
  exactly if the mapping changed or the tunnel is not Ready. A Ready tunnel is not
  published again until its mapping changes or it loses Ready, and `ReadyButClosed`
  reaches a Ready tunnel whose port is closed with no retry pending.
- `QuietPortServesOwner`: even before the drain, a port with nothing pending on it
  forwards for its owner only.
- `SnapshotsAreExact`: a snapshot that applies leaves exactly its mappings.
- `KeyBeforeReadyOverRuns`, `CleanCreationGivesKeys`, `KeyComesFromCurrentPod`: when a
  Ready tunnel has its gateway's key, and whose key it is.
- `ReadyMeansHeld`: when a reconcile makes a tunnel Ready, or leaves it so after a fresh
  look at its gateway, every forwarder with a registered stream has held that revision or
  a later one at some earlier moment.
- `NothingLost`, `OverflowIsForever`: a stream that has not overflowed has lost nothing,
  and overflow never clears.
- `SnapshotsNotOlder`, `NothingAhead`, `RevisionsAdvance`: persist before publish, and
  the discipline of revisions.
- `PortsNeverShared`: no two stored tunnels share a port and no port leaks.
- `ServiceGoesOn`: a forwarder that is disconnected keeps serving what it has.

Some things the code or its comments suggest do not hold. Each has a lemma that shows it
at an input or in a run, and a lemma that says exactly when it does hold.

- A failed replacement *can* remove a usable mapping (`pkg/forwarder/proxy.go:125-127`):
  `FailedReplacementRemovesMapping`, `FailedReconcileKeepsPortsIff`.
- A reconciled table need not match the snapshot (`pkg/forwarder/proxy.go:125`):
  `LaterEntrySurvivesSnapshot`, `ReconcileMatchesSnapshotIff`. This is about the proxy by
  itself and needs a snapshot older than the table, so a stale read of the API server; in
  the runs of the state machine it does not happen (`SnapshotsAreExact`).
- Revisions do not make every older queued update harmless
  (`pkg/forwarder/grpc_client.go:51-52`, `pkg/forwarder/proxy.go:49-51`): on a port that
  another tunnel has by now, or as a deletion, it takes effect. `StaleUpdateTakesPort`
  is an input and `ReadyForwardsToDeleted` a run in which a Ready tunnel's port forwards
  to a deleted tunnel's gateway for a while; `NoEffectIff` and `OlderHarmlessIff` say
  exactly when an update has no effect.
- A Ready tunnel can lack its gateway key, or be at a revision nobody acknowledged, when
  a reconcile finds the pod changed and ready but does not learn the gateway's key:
  `ReadyWithoutKey`, `ReadyWithoutKeyReachable`, `KeyBeforeReadyIff` and
  `KeyBeforeReadyOverRuns` for the key, `ReadyUnacked` and `ReadyAckedIff` for the
  revision.
- A tunnel that waits for acknowledgements need not be looked at again, when its gateway
  answers without a key: `WaitingForgotten`, `WaitingForgottenIff`.
- An open upstream connection can be forgotten, because a response pipe deletes by client
  address: `OpenButUnlisted`, `NoneForgottenIff`.
- Closing a listener's sessions need not end them, because the packet loop may still
  insert one: `InsertsAfterClose`, `DialsAfterClose`, `LooksUpAfterClose`,
  `ClosedForGoodIff`.

## Assumptions

These are conditions of the steps in `Protocol.Enabled`, or of the modelling. What the
original takes from clocks, random numbers, the API server, the gateway and the network
(idle cutoffs, the start of a port scan, the outcomes of calls, listens and dials, pod
states, the fetched key) is an input of the function, method or step concerned.

- A run starts from an empty system. Reads of the API server see the latest write, a
  listing shows one moment, and reconciles are atomic and serial.
- A create, update or patch that reports an error has had no effect. If the update that
  drops the finalizer takes effect all the same, the tunnel is gone with its port still
  allocated and its deletion unpublished: `LostFinalizerUpdateIff`.
- Answering a snapshot request lists the tunnels and loads their ports into the allocator
  at one moment. The code holds no lock over the two; a tunnel that is deleted in between
  leaves its port allocated until a restart: `LateLoadLeaks`, `LateLoadsKeepPortsIff`.
- A tunnel's namespace and name are not used again after it is gone. Otherwise old
  acknowledgements make the new tunnel ready at once: `ReusedKeyIsReadyAtOnce`,
  `CheckedReadyIff`.
- The last delete of a terminated tunnel succeeds or finds nothing. Otherwise its port
  can be given to another tunnel whose mapping is then deleted: `ReconcileKeepsPortsIff`,
  `FailedLastDeleteHitsNeighbour`.
- Listing the tunnels at operator start succeeds. Otherwise a persisted port can be
  given out again: `RestartWithoutListingIff`, `RestartWithoutListingDuplicates`.
- A new pod has a UID of its own, a failed pod stays failed, and only the operator's
  finalizer is on a tunnel.
- One forwarder process uses a forwarder identity at a time.

## Model

| member | source | states |
|---|---|---|
| TunnelTypes.TunnelKeyInjective | internal/grpc/server.go:263 | the string keys of two tunnels are equal only if the tunnels are, for namespaces without a slash |
| TunnelTypes.GatewayAddressIs | internal/controller/tunnel_controller.go:521 | a gateway is its pod's address with port 51820, bracketed if it has colons |
| TunnelTypes.GatewayAddressInjective | internal/grpc/server.go:234-235 | different pod addresses give different gateways |
| TunnelTypes.GatewayResourceNameInjective | internal/controller/tunnel_controller.go:569-571 | different tunnels of a namespace have differently named pods |
| TunnelTypes.IsPodReadyIff | internal/controller/tunnel_controller.go:647-655 | a pod is ready exactly if its first condition of kind Ready holds |
| PortAlloc.Bounds | pkg/portalloc/allocator.go:26-36 | the range for every pair of configured bounds: itself when usable, and otherwise with the defaults 10000 and 60000 |
| PortAlloc.PortAllocator.constructor | pkg/portalloc/allocator.go:26-45 | a new allocator is valid and empty with the normalised range |
| PortAlloc.Alloc.Allocate | pkg/portalloc/allocator.go:47-70 | the two maps stay inverse and in range; a returned port is the key's; an error changes nothing |
| PortAlloc.ProbeVisitsEachPortOnce | pkg/portalloc/allocator.go:55-59 | from every start the wraparound scan meets each port of the range exactly once |
| PortAlloc.ProbeGoesUp | pkg/portalloc/allocator.go:55-59 | the scan starts at the drawn port and goes up, wrapping from the last port to the first |
| PortAlloc.AllocateTakesFirstFree | pkg/portalloc/allocator.go:58-66 | a new key gets the first free port of the scan |
| PortAlloc.AllocateCompleteness | pkg/portalloc/allocator.go:47-70 | stable for a known key; for a new one an error exactly when as many keys are allocated as the range has ports, otherwise a port that was unused |
| PortAlloc.PortAllocator.Allocate | pkg/portalloc/allocator.go:47-70 | the scan loop computes the allocation function; port arithmetic stays within 32 bits |
| PortAlloc.PortAllocator.Release | pkg/portalloc/allocator.go:72-83 | the key and its port are forgotten, nothing else |
| PortAlloc.PortAllocator.IsAllocated | pkg/portalloc/allocator.go:85-91 | true exactly when some key holds the port |
| PortAlloc.PortAllocator.GetPort | pkg/portalloc/allocator.go:93-99 | the port registered for the key, if there is one |
| PortAlloc.Alloc.LoadExisting | pkg/portalloc/allocator.go:101-119 | the key ends up with the port exactly if it is in range and no other key has it, otherwise nothing changes; other keys keep theirs and the maps stay inverse |
| PortAlloc.PortAllocator.LoadExisting | pkg/portalloc/allocator.go:101-119 | the method computes the loading function |
| PortAlloc.LoadHeldIsNoop | pkg/portalloc/allocator.go:105-118 | loading what is held, or a port out of range, changes nothing |
| PortAlloc.RecoveryFirstListedWins | cmd/main.go:131-138 | after recovery a key holds a port exactly if its claim is in range and the first listed for that port |
| PortAlloc.RecoveryRebuilds | cmd/main.go:131-138 | with distinct ports, recovery in any order gives exactly the persisted in-range allocations |
| PortAlloc.LoadAllRestores | cmd/main.go:131-138 | a claim in range whose port no other key has is held after loading, whatever the allocator held before |
| PortAlloc.LoadExistingAllocations | cmd/main.go:124-139 | the recovery loop computes the recovery function |
| UdpProxy.ReplayIsLatest | pkg/forwarder/proxy.go:66-123 | replaying one tunnel's mappings ends on the one with the highest revision, when a revision decides its gateway |
| UdpProxy.ReplayIsJoin | pkg/forwarder/proxy.go:73-84 | order and repetition of one tunnel's replayed mappings do not matter when the revision decides the gateway |
| ForwarderClient.NoEffectIff | cmd/forwarder/main.go:201-234 | exactly when taking an update leaves the table as it is, for all updates of all tunnels |
| ForwarderClient.BlankCases | cmd/forwarder/main.go:219-223 | white space only is no gateway, and a string with a visible character is one |
| ForwarderClient.OlderHarmlessIff | pkg/forwarder/grpc_client.go:50-53 | an older update has no effect exactly if it is a mapping of the tunnel that has the port |
| ForwarderClient.StaleUpdateTakesPort | pkg/forwarder/proxy.go:49-51 | a table and a stale update of another tunnel that takes its port over |
| UdpProxy.ReplayCommutesIff | pkg/forwarder/proxy.go:73-85 | two updates of a tunnel commute exactly when revisions differ or gateways agree |
| UdpProxy.ApplyCases | pkg/forwarder/proxy.go:52-123 | what applying a mapping does in every case: refused, kept, revision raised, listener opened, or port lost |
| UdpProxy.SameGatewayNeedsNoListen | pkg/forwarder/proxy.go:77-84 | a new revision with the same gateway is applied whether or not a socket could be had |
| UdpProxy.ApplyAllSucceeds | pkg/forwarder/proxy.go:128-139 | without a failing listen every mapping is merged into its port and other ports are untouched |
| UdpProxy.FailedReconcileFrame | pkg/forwarder/proxy.go:128-139 | a snapshot fails exactly at its first failing listen; that port is empty, earlier mappings are applied, all other ports including stale ones are untouched |
| UdpProxy.FailedReconcileKeepsPortsIff | pkg/forwarder/proxy.go:125-139 | a failed snapshot keeps every mapped port mapped exactly when the failing port was not mapped before |
| UdpProxy.FailedReplacementRemovesMapping | pkg/forwarder/proxy.go:85-92 | a table and a snapshot on which a failed replacement removes a usable mapping |
| UdpProxy.ReconcileExact | pkg/forwarder/proxy.go:128-147 | success leaves exactly the snapshot's ports, each with the snapshot's mapping or an existing later revision of the same tunnel |
| UdpProxy.ReconcileMatchesSnapshotIff | pkg/forwarder/proxy.go:125-147 | the table matches the snapshot exactly when no port had a later revision of its tunnel |
| UdpProxy.LaterEntrySurvivesSnapshot | pkg/forwarder/proxy.go:73-77 | a table and an older snapshot that leaves it as it is |
| UdpProxy.ReconcileIdempotent | pkg/forwarder/proxy.go:128-147 | reconciling again changes nothing and needs no listen |
| UdpProxy.Proxy.AddMapping | pkg/forwarder/proxy.go:66-123 | puts any mapping on its port as the placing function does; a later or same-gateway listener stays the very same object, dropped listeners are closed, new ones are fresh |
| UdpProxy.Proxy.ApplyMapping | pkg/forwarder/proxy.go:52-64 | rejects exactly the invalid mappings, otherwise as AddMapping, with the same listener kept |
| UdpProxy.Proxy.ReconcileMappings | pkg/forwarder/proxy.go:128-147 | the two loops compute the reconcile function and leak no listener |
| UdpProxy.Proxy.Ports | pkg/forwarder/proxy.go:150-158 | lists each mapped port once |
| UdpProxy.Proxy.RemoveMapping | pkg/forwarder/proxy.go:160-174 | the port is gone, its listener closed, the others untouched |
| UdpProxy.Proxy.Close | pkg/forwarder/proxy.go:176-187 | the table is empty and every listener closed |
| Sessions.SessionMap.CleanupIdle | pkg/forwarder/session.go:48-62 | exactly the sessions at or before the cutoff are closed and removed |
| Sessions.SessionMap.CloseAll | pkg/forwarder/session.go:64-72 | the map is empty and every session it had is closed |
| Sessions.Session.Touch | pkg/forwarder/session.go:82-87 | the last activity is the given time, and nothing else changes |
| Sessions.SessionMap.Set | pkg/forwarder/session.go:34-39 | the session is stored under the key and no other entry changes; validity is kept for an open session under its own address |
| Sessions.SessionMap.Delete | pkg/forwarder/session.go:41-46 | the key is removed, whatever session it had |
| SessionRuns.SessionSafety | pkg/forwarder/proxy.go:205-322 | in every interleaving each listed session is under its own client, open, and connected to the listener's gateway |
| SessionRuns.CleanupExact | pkg/forwarder/session.go:48-62 | among interleaved steps, cleanup closes and removes exactly the expired sessions and touches no other connection |
| SessionRuns.ActiveSurvivesCleanup | pkg/forwarder/proxy.go:291 | after a response of its gateway or a packet of its client, and any further steps, a cleanup with an earlier cutoff leaves a session alone |
| SessionRuns.StepKeepsTrackedIff | pkg/forwarder/proxy.go:205-322 | every open connection stays listed or about to be closed or inserted in a step exactly unless the step is a pipe dropping the entry of another running session |
| SessionRuns.NoneForgottenIff | pkg/forwarder/proxy.go:205-322 | the same over every interleaving; without such a drop every open connection is in the map at quiet moments |
| SessionRuns.OpenButUnlisted | pkg/forwarder/proxy.go:231-237 | an interleaving after which an open, piped session is in no map |
| SessionRuns.InsertsAfterClose | pkg/forwarder/proxy.go:259-273 | a dialed session is inserted after all sessions were closed |
| SessionRuns.DialsAfterClose | pkg/forwarder/proxy.go:248-273 | so is one that is dialed only then |
| SessionRuns.LooksUpAfterClose | pkg/forwarder/proxy.go:208-252 | and one whose packet was read before the close and looked up after it |
| SessionRuns.ClosedForGoodIff | pkg/forwarder/proxy.go:160-174 | after the close the map stays empty on every continuation without a further packet exactly if the packet loop has no packet to look up, has not missed its client and has not dialed for it |
| ForwarderService.Push | internal/grpc/server.go:165-171 | an update is appended while fewer than 64 are queued; otherwise it is dropped and the overflow set, which stays |
| ForwarderService.NotifyAllAppends | internal/grpc/server.go:157-173 | a stream without overflow holds everything published, in order, and overflow stays |
| ForwarderService.OverflowNeedsFullQueue | internal/grpc/server.go:157-173 | a stream overflows only with 64 updates in its queue |
| ForwarderService.RecordAck | internal/grpc/server.go:117-135 | invalid exactly with an empty field, accepted exactly for a connected forwarder with all fields set; raises one entry to the maximum |
| ForwarderService.SnapshotContents | internal/grpc/server.go:65-81 | a snapshot holds exactly the mappings of the tunnels that are not deleted, terminated or failed and have a port, an address and a key |
| ForwarderService.SnapshotPortsDistinct | internal/grpc/server.go:65-81 | tunnels with distinct ports give a snapshot with distinct ports |
| ForwarderService.SnapshotRestoresAllocation | internal/grpc/server.go:65-75 | answering a snapshot request restores a missing allocation of an eligible tunnel |
| ForwarderService.ForwarderServer.GetConfig | internal/grpc/server.go:58-88 | returns the snapshot and loads the listed ports into the allocator |
| ForwarderService.ForwarderServer.NotifyUpdate | internal/grpc/server.go:157-173 | the loop offers the update to every stream and flags the full ones |
| ForwarderService.ForwarderServer.Ack | internal/grpc/server.go:117-135 | computes the acknowledgement function |
| ForwarderService.ForwarderServer.MissingAcks | internal/grpc/server.go:139-155 | lists, each once, exactly the connected identities below the revision |
| ForwarderService.ForwarderServer.AddStream | internal/grpc/server.go:210-214 | the stream is registered |
| ForwarderService.ForwarderServer.RemoveStream | internal/grpc/server.go:216-223 | the stream is gone, and its identity's acknowledgements with its last stream |
| ForwarderService.ForwarderServer.ConnectedLocked | internal/grpc/server.go:225-232 | true exactly when a registered stream has the identity |
| AckHistory.AckTableIsMaximum | internal/grpc/server.go:117-155 | over every history the table lists connected identities only, and an entry is the maximum of zero and the revisions acknowledged since the identity has been connected without a break |
| TunnelController.TunnelReconciler.HandleReadyPod | internal/controller/tunnel_controller.go:370-421 | the stepwise status changes compute the function, and report an update exactly when the status changed |
| TunnelController.TunnelReconciler.EvaluatePodPhase | internal/controller/tunnel_controller.go:339-368 | the same for all pod phases |
| TunnelController.TunnelReconciler.RecordMapping | internal/controller/tunnel_controller.go:112-147 | port, pod and address are recorded; the revision moves by one exactly when something changed |
| TunnelController.TunnelReconciler.NotifyTunnelUpdate | internal/controller/tunnel_controller.go:512-541 | only complete mappings and deletions of a port are offered to the streams |
| TunnelController.TunnelReconciler.HandleDeletion | internal/controller/tunnel_controller.go:423-442 | computes the deletion function with every failure point |
| TunnelController.TunnelReconciler.HandleTerminated | internal/controller/tunnel_controller.go:444-460 | computes the cleanup function with every failure point |
| TunnelController.TunnelReconciler.EnsureGatewayPod | internal/controller/tunnel_controller.go:177-213 | the existing pod, or a new one with its own UID |
| TunnelController.TunnelReconciler.Reconcile | internal/controller/tunnel_controller.go:58-175 | one request has exactly the effect, result and requeue of the reconcile function |
| ReconcileFacts.RevisionStep | internal/controller/tunnel_controller.go:112-147 | the revision grows by one exactly when port, pod name, UID or address change; they become the pod's, and a set port stays |
| ReconcileFacts.PublishedFacts | internal/controller/tunnel_controller.go:152-170 | what is published is the complete new status, once for a changed mapping and once while not ready, as added exactly with a new port |
| ReconcileFacts.ReadyStep | internal/controller/tunnel_controller.go:384-406 | a status is ready only with the gateway's key fetched and no acknowledgement missing at the new revision, unless it was ready and no key was fetched |
| ReconcileFacts.ReconcileEffect | internal/controller/tunnel_controller.go:58-175 | a reconcile keeps, removes or stores one tunnel, publishes accordingly, and touches nothing else, given that a clean-up's last delete succeeds |
| ReconcileFacts.DeletionFailsIff | internal/controller/tunnel_controller.go:423-442 | deletion reports an error exactly if a delete or the finalizer update fails, and has then released and published nothing |
| ReconcileFacts.CleanUpFailsIff | internal/controller/tunnel_controller.go:444-478 | the same for a terminated tunnel, with its last delete |
| ReconcileFacts.ReconcileFailsIff | internal/controller/tunnel_controller.go:58-175 | exactly when a reconcile reports an error |
| StatusRuns.ObserveFixpoint | internal/controller/tunnel_controller.go:112-150 | the same observations again give the same status, for a pod that has not succeeded |
| StatusRuns.ReconcileFixpoint | internal/controller/tunnel_controller.go:58-175 | after a successful reconcile of a live tunnel, a second one in the same surroundings patches nothing and keeps tunnels, pods and allocations |
| StatusRuns.PhaseCases | internal/controller/tunnel_controller.go:339-421 | phase, message and key for every pod, answer of the gateway and set of acknowledgements |
| StatusRuns.RequeueCases | internal/controller/tunnel_controller.go:370-421 | a requeue after two seconds exactly if the pod is ready and the status page failed, the VIP is unknown or an acknowledgement is missing |
| StatusRuns.ReconcileRequeues | internal/controller/tunnel_controller.go:58-175 | the same for a whole reconcile, and no requeue in any other case |
| StatusRuns.WaitingForgotten | internal/controller/tunnel_controller.go:379-384 | a status page that answers without a key leaves a waiting tunnel without requeue |
| StatusRuns.WaitingForgottenIff | internal/controller/tunnel_controller.go:379-419 | a tunnel that waits for acknowledgements is requeued exactly unless it waited before and the gateway of its ready pod gives no key without an error |
| StatusRuns.EndpointCases | internal/controller/tunnel_controller.go:408-414 | the endpoint is the VIP joined with the tunnel's port, written once the pod is ready and no acknowledgement is missing |
| Reconciler.ItoaRoundTrip | internal/controller/tunnel_controller.go:410 | the port in the endpoint reads back as the port |
| StatusRuns.ReadyAckedIff | internal/controller/tunnel_controller.go:379-406 | Ready keeps meaning acknowledged exactly unless a changed mapping is left unchecked while a forwarder is connected |
| StatusRuns.CheckedReadyIff | internal/controller/tunnel_controller.go:389-406 | a reconcile that learns the key makes the tunnel Ready exactly if every connected forwarder acknowledged the revision it takes or a later one |
| StatusRuns.KeyBeforeReadyIff | internal/controller/tunnel_controller.go:132-139 | Ready keeps meaning a known key exactly unless a new pod is left unchecked |
| StatusRuns.ReadyWithoutKey | internal/controller/tunnel_controller.go:152-157 | a failed patch after pod creation and a failed status page leave a tunnel Ready without key |
| Scenarios.ReadyWithoutKeyReachable | internal/controller/tunnel_controller.go:152-157 | a run that ends with a Ready tunnel without key |
| Scenarios.ReadyUnacked | internal/controller/tunnel_controller.go:140-157 | a run that ends with a Ready tunnel at a revision its connected forwarder has not acknowledged |
| KeySafety.KeyComesFromCurrentPod | internal/controller/tunnel_controller.go:132-139 | in every run a known key was fetched by an earlier reconcile from the pod the status names, and the status has named that pod since |
| KeySafety.KeyBeforeReadyOverRuns | internal/controller/tunnel_controller.go:132-157 | in every run, Ready implies a key in all states exactly if no reconcile lets a new pod slip through unchecked |
| KeySafety.CleanCreationGivesKeys | internal/controller/tunnel_controller.go:99-157 | in every run in which no reconcile fails after creating a pod, each stored pod is the one its tunnel names and each Ready tunnel has a key |
| ForwarderClient.DrainedPort | cmd/forwarder/main.go:201-244 | what a port holds after a list of updates, read off the last update on it: nothing after a deletion, that mapping when no later revision of its tunnel is around |
| ForwarderProcess.AckAll | cmd/forwarder/main.go:188-197 | acknowledges valid mappings only, and all of them if no call fails |
| ClientSteps.AcksAreSteps | cmd/forwarder/main.go:188-197 | the acknowledgements of the loop are those of the state machine's step, and it succeeds exactly if it gets to the end |
| ClientSteps.ApplySends | cmd/forwarder/main.go:181-199 | the state machine's snapshot step has the table and the acknowledgements the loop is compared with |
| ClientSteps.ReceiveSends | cmd/forwarder/main.go:201-244 | so has its update step |
| ClientSteps.UpdatesAreSteps | pkg/forwarder/grpc_client.go:84-96 | taking a connection's updates leaves the table and sends the acknowledgements of the state machine's steps |
| ClientSteps.TurnIsSteps | pkg/forwarder/grpc_client.go:76-97 | one turn of the watch loop leaves the table and sends the acknowledgements of the snapshot step and the update steps, live exactly if resynced |
| ForwarderProcess.Process.ApplySnapshot | cmd/forwarder/main.go:181-199 | acknowledges only after the whole snapshot applied, in order, up to a failing call |
| ForwarderProcess.Process.HandleUpdate | cmd/forwarder/main.go:201-244 | applies, deletes or ignores an update, and acknowledges only an applied mapping |
| ForwarderProcess.Process.WatchUpdates | pkg/forwarder/grpc_client.go:54-109 | over any list of connections the loop computes table, acknowledgements and pause: no update is taken before that connection's snapshot went through, no acknowledgement precedes the applied snapshot, the pause restarts after a resync |
| ForwarderProcess.BackoffBounded | pkg/forwarder/grpc_client.go:60-107 | the pause between connections is at least a second and below a minute, after any connections |
| ForwarderProcess.PauseGrows | pkg/forwarder/grpc_client.go:60-107 | without a resync the pauses are 1, 2, 4, 8, 16 and then 32 seconds |
| ForwarderProcess.ResyncRestartsPause | pkg/forwarder/grpc_client.go:83-84 | a resync starts the pauses again |
| ForwarderProcess.ChangesBehindBarrier | pkg/forwarder/grpc_client.go:65-82 | over any list of connections, a turn that changes the table or sends an acknowledgement is one whose stream opened, whose barrier came and whose snapshot was fetched |
| ForwarderProcess.NothingInFrontOfBarrier | pkg/forwarder/grpc_client.go:65-82 | connections none of which gets behind its barrier leave table and acknowledgements as they were |
| ForwarderProcess.AcksBehindSnapshot | cmd/forwarder/main.go:181-199 | acknowledgements need the whole snapshot applied, and updates need it acknowledged |
| ForwarderProcess.ReconnectResyncs | pkg/forwarder/grpc_client.go:50-81 | whatever came before, a resync followed by silence leaves exactly the snapshot's ports and mappings up to later revisions |
| PortSafety.RestartKeepsPorts | cmd/main.go:82-85 | a restart with any port range and listing order keeps the ports safe |
| PortSafety.SnapshotLoadsNothing | internal/grpc/server.go:73-75 | loading the ports of tunnels as they are stored now leaves a sound allocator unchanged |
| PortSafety.ReconcileKeepsPorts | internal/controller/tunnel_controller.go:93-126 | a reconcile keeps the ports safe, with every failure point but the last delete |
| Convergence.NoSilentService | internal/controller/tunnel_controller.go:163-170 | while a forwarder is connected no tunnel comes into service unpublished |
| Convergence.AnnouncedKeepsFit | internal/controller/tunnel_controller.go:152-170 | publishing what a change calls for keeps every stream and forwarder converging |
| Convergence.AppliedSnapshotFits | cmd/forwarder/main.go:181-187 | a snapshot taken behind the barrier leaves a table that converges with the queued updates |
| Convergence.TakenUpdateFits | pkg/forwarder/grpc_client.go:84-96 | taking the next update keeps the forwarder converging |
| Invariant.StepKeepsInv | internal/grpc/server.go:90-114 | every step of the state machine keeps the inductive invariant |
| Invariant.InvOverRuns | internal/grpc/server.go:34-36 | the invariant holds in every state of every run |
| Guarantees.Converges | pkg/forwarder/grpc_client.go:50-53 | a connected forwarder that applies its snapshot and drains its stream serves an eligible tunnel at its current revision and gateway if and only if the port does not wait for the retry of a failed listen, and no foreign tunnel on any port |
| Guarantees.CurrentEntryInjective | internal/controller/tunnel_controller.go:521-538 | the entries Converges speaks of differ when pod address or revision do |
| Guarantees.QuietPortServesOwner | pkg/forwarder/grpc_client.go:50-53 | on a live forwarder in sync a port with nothing pending forwards for its owner only, and at the current mapping exactly unless its latest listen failed |
| Guarantees.SnapshotsAreExact | pkg/forwarder/proxy.go:125-147 | in every run a snapshot that applies leaves exactly its mappings, at boot and behind the barrier |
| Guarantees.RetryMissingIff | internal/controller/tunnel_controller.go:159-170 | after a successful reconcile a forwarder still waits on the port exactly if it did before, the mapping is unchanged and the tunnel Ready |
| Guarantees.RepublishRepairs | internal/controller/tunnel_controller.go:163-170 | republishing a tunnel that is not ready repairs failed listens on every connected forwarder |
| Guarantees.AckedWasHeld | cmd/forwarder/main.go:225-234 | whatever was acknowledged was held by the forwarder at some moment |
| Guarantees.ReadyMeansHeld | internal/controller/tunnel_controller.go:389-406 | when a reconcile makes a tunnel Ready, or leaves it so having learned the gateway's key, every forwarder with a stream has held its revision or a later one |
| Guarantees.ReadyIsServed | internal/controller/tunnel_controller.go:389-406 | at that moment draining leaves the mapping in place on a connected forwarder if and only if the port does not wait for a retry |
| Scenarios.ReadyButClosed | pkg/forwarder/proxy.go:85-92 | a run that ends with a Ready tunnel whose port is closed on a connected forwarder, with nothing pending |
| Scenarios.ReadyForwardsToDeleted | pkg/forwarder/proxy.go:73-85 | a run that ends with a Ready tunnel's port forwarding to the gateway of a deleted tunnel |
| Guarantees.PortsNeverShared | internal/controller/tunnel_controller.go:116-126 | no two stored tunnels share a port, and every allocation belongs to a stored tunnel, under the assumptions above |
| History.NothingLost | internal/grpc/server.go:157-173 | without overflow, received, sent and queued updates are exactly what was published since the registration, with at most 64 queued |
| History.OverflowIsForever | internal/grpc/server.go:106-107 | overflow never clears, and an ended stream does not come back |
| History.OverflowsWhenFull | internal/grpc/server.go:165-171 | in every run a stream overflows in a reconcile only, with 64 updates queued |
| History.AcksOfConnectedOnly | internal/grpc/server.go:216-223 | in every run only forwarders with a registered stream have acknowledgements recorded |
| History.ServiceGoesOn | cmd/forwarder/main.go:181-244 | in every run a forwarder's table stays the same unless it starts, takes a snapshot or takes an update itself |
| History.SnapshotsNotOlder | internal/controller/tunnel_controller.go:152-162 | every later snapshot carries a published revision or a newer one, and the same mapping at the same revision |
| History.NothingAhead | internal/controller/tunnel_controller.go:152-162 | no table, fetched snapshot, queue or update in transit is ahead of the persisted status, or disagrees with it at its revision |
| History.RevisionMovesByOne | internal/controller/tunnel_controller.go:116-147 | each step moves a revision by one exactly when the mapping fields change |
| History.RevisionsAdvance | internal/controller/tunnel_controller.go:116-147 | revisions never decrease, equal revisions mean equal mapping fields, and a port is written once |
| Assumptions.ReconcileKeepsPortsIff | internal/controller/tunnel_controller.go:456-459 | a reconcile keeps ports distinct, persisted ports allocated and allocations owned, exactly unless the last delete of a terminated tunnel fails whose port is in the range |
| Assumptions.FailedLastDeleteHitsNeighbour | internal/controller/tunnel_controller.go:456-459 | then the port can go to another tunnel and the next cleanup deletes it there |
| Assumptions.RestartWithoutListingIff | cmd/main.go:125-129 | starting without the listing is safe exactly when no stored port is in range |
| Assumptions.RestartWithoutListingDuplicates | cmd/main.go:125-129 | otherwise a persisted port can be given out again |
| Assumptions.LateLoadsKeepPortsIff | internal/grpc/server.go:61-75 | loading the ports of an earlier listing keeps what is promised of the ports exactly if each listed tunnel is still stored, or its port out of range or taken by then |
| Assumptions.LateLoadLeaks | internal/grpc/server.go:61-75 | a tunnel listed, then deleted, then loaded leaves its port allocated to no stored tunnel |
| Assumptions.LostFinalizerUpdateIff | internal/controller/tunnel_controller.go:433-439 | a removal whose answer is lost keeps what is promised of the ports exactly if the tunnel had no allocation |
| Scenarios.ReusedKeyIsReadyAtOnce | internal/grpc/server.go:216-223 | after a run in which a tunnel was acknowledged and deleted, a tunnel of the same name is Ready in the reconcile that first publishes it, while the forwarder holds nothing |

## Left out

- UDP and TCP sockets, DNS resolution, VIP binding and packet contents: listening and dialing are inputs that succeed or fail.
- The gRPC transport and generated code: a stream is a first-in first-out wire behind its queue; the server's select loop appears as the steps that register, send and close a stream.
- The gateway pod UID and address carried inside mappings: forwarders ignore them.
- Legacy stream identities: identities are opaque, and a stream may belong to a client that never acknowledges.
- Prometheus metrics, logging, health server, network policies, pod specifications, target validation rules: validity of the target and success of the policy call are inputs.
- A missing allocator or forwarder service: both are always wired in the operator binary.
- The second existence check in `addMapping` and the locks of the proxy: one goroutine changes the port table.
- 64-bit wrap-around of revisions: revisions are unbounded integers.
- Unicode white space beyond Latin-1 in gateway addresses: addresses come from pod addresses.
- UdpProxy.Proxy.RemoveMapping: does not close the listener's sessions, which are modelled on their own in `Sessions` and `SessionRuns`.
- UdpProxy.Proxy.Close: does not close the listeners' sessions either, for the same reason.
- PortSafety.SnapshotLoadsNothing: the tunnels are those stored at the time of loading; listing earlier is the subject of `LateLoadsKeepPortsIff`.
- Guarantees.PortsNeverShared: no allocation leaks only as long as a snapshot request lists and loads at one moment.
- Liveness (a tunnel eventually becomes ready): the results are about safety and about what draining leads to.
