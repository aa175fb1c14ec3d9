# Health evidence, from observation to published readiness

This project models how a secondary-network Service decides which Pod addresses may
appear in DNS, and proves what that decision can be relied on for.

Node agents inspect Pod interfaces and probe paths. Each agent reports over one gRPC
stream, as full snapshots between `SnapshotBegin` and `SnapshotEnd` or as deltas. The
controller checks every report against a registry derived from the Services, keeps what
it accepts for a freshness window, and publishes an address as ready only while a local
and a path report for it are fresh and positive. A reconciler turns that into
EndpointSlices.

## How it is organised

| file | part of the system |
|---|---|
| `Ordering` | string order, sorting as "some sorted permutation", and when sorting has no choice |
| `HealthModel`, `Messages` | attachments, reports, keys and their preimages, wire messages |
| `Store`, `StoreLaws` | the evidence store: class `HealthStore` proved against `StoreState`; delivery order, marking, pruning |
| `Registry` | the per-Service table and the index derived from it: class `Registry`, predicate `Indexes` |
| `Readiness` | the readiness decision |
| `Server`, `Bracket` | one stream on the controller: class `Stream` proved equal to `Handle`; snapshot brackets |
| `Protocol` | the controller as a state machine; runs; where evidence comes from |
| `Leases`, `Fencing`, `Notification`, `Expiry`, `Sequences`, `Publication` | what holds over whole runs |
| `Probe`, `ProbeManager`, `ProbeRuns` | the debouncing machine and its manager |
| `Sender` | the agent's bookkeeping and its sink: classes `Agent` and `GRPCSink` |
| `Delivery`, `Encodings`, `Bystanders`, `Agreement`, `Settled`, `Renewal` | one agent and the controller together |
| `Slices`, `Desired`, `Diff`, `Reconcile` | wanted slices, comparing, and applying them to an API server |
| `Witnesses`, `Overflow` | runs from a fresh start in which the exceptions below come about |

Everything that mutates fields or loops in the source is a class or a method here, proved
equal to a function on values; the theorems are about those functions and about runs of
them. What an operation is for is stated over its inputs and results outright, fields and
numbers written out, apart from the functions that compute it. A run is a sequence of states and events, each event one atomic step: an envelope,
a registry change, an expiry sweep, a prune, a clock tick, a stream opening or closing.
Events interleave freely, and Go's map iteration and `sort.Slice` are taken as any order
and any sorted permutation.

A key is a hash of a preimage; the model keeps the preimage, that is, it takes the hash
to be injective, and proves the preimages unambiguous.

## Main results

- **Leases.** In every reachable state, ready means: the Pod is ready, and for the local
  and for the path key the run contains a positive report that a node entitled to make it
  delivered, that was accepted from the authoritative instance within the freshness
  window, and that nothing has replaced since. The converse holds too.
- **Agreement.** Whatever connects, breaks, restarts, is registered, withdrawn, pruned or
  sent by other processes, on the agent's node or another: what the agent told the store
  stands there until an event loses it, and what loses it is stated exactly. After each
  publish that gets through, statement by statement, the store holds the sweep's last
  verdict iff the registry takes it, or it needed no repeating and had been told; nothing
  else is held for the node. Deltas refine the snapshot, and what only a snapshot restores
  is told exactly. When the registry takes everything, snapshot or deltas leave the
  controller's picture of the node equal to the sweep; an envelope of another process
  undoes that in exactly two ways, by retiring an attachment the agent remembers and by
  taking its node over.
- **Renewal.** While refresh period and time since a publish together fit the freshness
  window, everything it made stand is answered as it was said, until something disturbs
  that very subject: through a lost stream, sweeps that go nowhere, snapshots that break
  off and deltas about other things.
- **Publication.** Whenever a published ready condition is wrong, its Service is waiting
  to be reconciled, or its notification met a full channel, or a silent commit took the
  evidence, or it lapsed and the next sweep is still to come.
- **Decision.** So, from observation to answer: while a publish that got through is recent
  enough, an attachment of the sweep is decided ready exactly when its Pod is, the agent
  found its interface, address and link in order, and its path ready.
- **Brackets.** A commit writes exactly what the open bracket collected, under one origin
  and one time, and nothing shows before it.
- **Fencing.** A superseded stream changes nothing but through `Retired`, and ends at the
  first envelope that exposes it.
- **Notification.** Exactly which Services a turn notifies, and which readiness changes
  reach which Services, with the one silent case shown by a run.
- **Acknowledgements.** When one is owed and with what number; it is overdue only while
  reports are being buffered or refused as old.
- **Order, sequence and expiry.** Deltas commute, are never refused as old on their own
  process's streams, and each acceptance is reported stale at most once.
- **Probing.** Of a machine made for f failures and s successes, the verdict is the kind of
  the latest run that long, and how often it may flap is bounded by the samples.
- **Slices.** The published endpoints do not depend on the lister's order or on ties; the
  diff's answer is exact precisely when nothing ties, which is so for every Service the
  API server admits; reconciliation converges exactly when nobody else holds a wanted
  name, then tells every unshared address with its readiness decision and every port with
  the number to connect to, and a second run writes nothing.

## Where the code and its descriptions differ

The model follows the code. Each difference has its exact condition, and a run or a pair
of envelopes that shows it.

- `api/health.proto:71-74` says the expected counts let the controller notice a truncated
  snapshot. It never does: one goes through exactly when its End is good otherwise
  (`Bracket.TruncationUnnoticedIff`; `Witnesses.SilentFlip` ends such a bracket).
- `api/health.proto:159-160` calls the acknowledged sequence the highest processed. It is
  the last, so it is the highest exactly when no earlier envelope carried a higher number
  (`Bracket.AckIsHighestIff`, `Bracket.AckBelowHighest`); the acknowledgement on admission
  is always 0 (`Bracket.AdmissionAcknowledgesNothing`). A report buffered in a bracket
  draws no acknowledgement of its own (`Server.BufferedIsUnacknowledged`).
- `Retired` is not checked against instance, node or sequence: a superseded stream's
  removes its successor's entry (`Witnesses.SupersededRetires`), and another node's breaks
  an agent's agreement with the controller (`Settled.OthersKeepAgreement`,
  `Witnesses.OthersBreakAgreement`).
- A snapshot commit has no sequence check: it lowers a stored number exactly when it names
  the key under a lower one (`Sequences.NumberFallsIff`, `Witnesses.NumberFalls`), which
  envelopes delivered in order never do (`Sequences.NumbersNeverFall`).
- A SnapshotEnd that drops an attachment without naming anything its Service registers
  notifies nobody (`Witnesses.SilentFlip`).
- `api/health.proto:161-162` says a resync is asked for when a report names an unknown
  subject. It is asked for on admission, on a SnapshotEnd that does not match, and of a
  superseded stream, and at no other time (`Server.ResyncIff`,
  `Witnesses.UnknownIsNotResynced`); so what the registry did
  not know when it was said waits for the next change or refresh
  (`Agreement.ControllerAgrees`).
- `internal/controller/service_controller.go:269-271` says a full channel means a reconcile
  is pending. It need not be this Service's: the notification is lost exactly if the
  channel is full and the Service is not in it (`Publication.FullChannelDrops`), and with
  it a Service can stay published wrongly (`Overflow.NotificationLost`).

## Model

| member | source | states |
|---|---|---|
| HealthModel.IDIdentifies | internal/model/attachment.go:39-46 | two attachments have one ID iff UID, network, interface and IP all agree, for NUL-free fields of any length |
| HealthModel.DomainIdentifies | internal/model/health.go:35-41 | a path domain is unambiguous as soon as node names are NUL-free |
| HealthModel.IDIsNoDomain | internal/model/health.go:87-92 | an attachment ID is never the domain of a node and network |
| HealthModel.PathKeyIdentifies | internal/model/health.go:82-92 | path keys agree at Endpoint scope iff UID, network, interface and IP do, at Node scope iff node and network do, and never across scopes |
| HealthModel.NulBreaksIdentity | internal/model/attachment.go:39-46 | a NUL inside a field would let two attachments share an ID |
| HealthModel.HashedBytes | internal/model/attachment.go:40-45 | the loop writes UID, network, interface and IP in this order, each followed by a NUL: the preimage the identity lemmas speak of |
| HealthModel.ScanHostname | internal/model/attachment.go:60-76 | a Pod name is used as hostname iff it is one to 63 lower-case letters, digits and dashes, no dash at either end |
| Store.HealthStore.AdoptInstance | internal/controller/health_store.go:83-89 | the instance becomes the node's authority, nothing else moves, the previous one is returned |
| Store.HealthStore.AcceptLocal | internal/controller/health_store.go:97-109 | stale instances and repeated or older sequences of the same instance are refused without a trace; otherwise the entry is replaced |
| Store.HealthStore.AcceptPath | internal/controller/health_store.go:112-124 | the same for path reports |
| Store.HealthStore.ApplySnapshot | internal/controller/health_store.go:132-157 | for the current instance: the node's entries are dropped and the snapshot's written, whatever the map order; otherwise no change |
| Store.HealthStore.Local | internal/controller/health_store.go:160-168 | the entry if present, and whether it is within the window |
| Store.HealthStore.Path | internal/controller/health_store.go:171-179 | the same for paths |
| Store.HealthStore.ForgetLocal | internal/controller/health_store.go:208-212 | the local entry goes, unconditionally |
| Store.HealthStore.SweepExpired | internal/controller/health_store.go:224-244 | marks and reports exactly the newly stale entries, each once |
| Store.HealthStore.Prune | internal/controller/health_store.go:248-265 | removes exactly what was accepted more than twice the window ago, and counts it |
| Store.PutAllAt | internal/controller/health_store.go:132-157 | of a snapshot's writes the last per key stands, all with one origin and one time |
| StoreLaws.DeltaOutcome | internal/controller/health_store.go:97-124 | after any deliveries each key holds the greatest sequence's report, with that report's own first arrival time; losers leave no trace |
| StoreLaws.WinnerPrevails | internal/controller/health_store.go:97-124 | the prevailing delivery is the first arrival of the greatest sequence |
| StoreLaws.OrderIndependent | internal/controller/health_store.go:97-124 | report and origin do not depend on delivery order or duplicates |
| StoreLaws.LocalsAreDeliveries | internal/controller/health_store.go:97-109 | the store under AcceptLocal calls of the current instance follows that law and moves nothing else |
| StoreLaws.PathsAreDeliveries | internal/controller/health_store.go:112-124 | the same for AcceptPath |
| StoreLaws.SweepInvisible | internal/controller/health_store.go:224-244 | a sweep changes no verdict and no readiness, then or later |
| StoreLaws.PruneInvisible | internal/controller/health_store.go:248-265 | a prune changes no verdict and no ready value; "stale" may become "never reported" |
| StoreLaws.SweepMarksAllStale | internal/controller/health_store.go:224-244 | right after a sweep every stale entry is marked |
| RegistryIndex.Registry.SetService | internal/controller/registry.go:49-54 | the table gains the entry and the index is again exactly what the table says |
| RegistryIndex.Registry.RemoveService | internal/controller/registry.go:57-62 | the table loses the entry and the index is again exact |
| RegistryIndex.BuildIndex | internal/controller/registry.go:64-84 | rebuilding in any map order yields attachments, owner lists without duplicates and path nodes as declared over the table |
| RegistryIndex.AddClaimIndexes | internal/controller/registry.go:64-93 | indexing one more claim keeps the index exact |
| RegistryIndex.Registry.Attachment | internal/controller/registry.go:97-105 | the attachment and its owners, or neither |
| RegistryIndex.Registry.PathKey | internal/controller/registry.go:109-117 | the owners of a known path key |
| RegistryIndex.Registry.PathKeyOnNode | internal/controller/registry.go:125-130 | true iff the node is the only one behind the key |
| RegistryIndex.OneAuthorityPerKey | internal/controller/registry.go:125-130 | at most one node may report for a path key |
| RegistryIndex.AuthorityMeansSoleNode | internal/controller/registry.go:119-130 | a node may report for a key iff every attachment reading it is on that node, and there is one |
| RegistryIndex.NodeScopeKeyHasOneNode | internal/controller/registry.go:119-130 | a Node-scope key always covers exactly one node |
| Readiness.ReadyIsFiveTerms | internal/controller/readiness.go:35-86 | ready iff Pod ready, a fresh local report under the attachment ID with all three checks passed, and a fresh positive path report, under the ID at Endpoint scope and under the domain of node and network at Node scope; each reason names the first term that fails |
| Readiness.ReasonsAreExact | internal/controller/readiness.go:45-85 | a missing report is told from a stale one, and a negative local report names the first failing check |
| Readiness.ReadinessOnlyDecays | internal/controller/readiness.go:35-86 | time alone never makes anything ready |
| Server.LocalRoundTrip | internal/controller/health_server.go:343-372 | an observation arrives as it was made, under the stream's node, iff the registry has its id with that address, interface and network, on that node or none |
| Server.PathRoundTrip | internal/controller/health_server.go:374-400 | a path report arrives under the stream's node iff that is the only node behind the key; scopes keep their names on the wire |
| Server.AdmissionMeaning | internal/controller/health_server.go:154-181 | the first envelope is refused unless it names a process and, without authentication, a node; else process and node are fixed, an authenticated node always winning, the process becomes the authority, and a resync is asked for |
| Server.ExpectedCountsAreIgnored | internal/controller/health_server.go:193-195 | the announced counts have no effect |
| Server.AckCarriesLastSequence | internal/controller/health_server.go:187-320 | past admission an acknowledgement repeats the envelope's own number |
| Server.AcksAreDue | internal/controller/health_server.go:182-321 | the 32nd envelope since the last acknowledgement draws one with its own number unless its report is buffered or refused as old; before that nothing taken quietly draws one, and everything else is answered at once |
| Server.BufferedIsUnacknowledged | internal/controller/health_server.go:256-260 | the turn of a report buffered in a bracket sends no acknowledgement |
| Server.ResyncIff | internal/controller/health_server.go:187-320 | past admission a resync is asked for iff a SnapshotEnd does not match or the stream shows to be superseded; an unknown subject is acknowledged, changes nothing and asks for nothing |
| Server.StreamEndsIff | internal/controller/health_server.go:178-305 | past admission a turn ends the stream iff the envelope shows it superseded; an envelope of another process is passed over |
| Server.CutMeaning | internal/controller/health_server.go:106-113 | a turn in which an acknowledgement cannot be sent ends the stream, having moved store and Services as the whole turn does, or as an empty envelope's if it failed on admission |
| Server.Stream.Adoption | internal/controller/health_server.go:154-181 | the first envelope fixes node and instance and is acknowledged, or ends the stream |
| Server.Stream.Receive | internal/controller/health_server.go:148-323 | one turn of the loop: admission, dispatch, notifications, acknowledgements, and the exits taken when one cannot be sent |
| Server.Stream.Switch | internal/controller/health_server.go:192-321 | the switch on the payload, branch by branch |
| Server.Stream.OnSnapshotEnd | internal/controller/health_server.go:197-243 | mismatch, superseded and committing ends |
| Server.Stream.OnLocal | internal/controller/health_server.go:245-276 | unknown, buffered, superseded, out-of-order and accepted local reports |
| Server.Stream.OnPath | internal/controller/health_server.go:278-305 | the same for path reports |
| Server.Stream.FromLocal | internal/controller/health_server.go:343-372 | the checks against the registry, and the owners to notify |
| Server.Stream.FromPath | internal/controller/health_server.go:374-400 | the reporting node must own the domain |
| Server.Stream.NotifyAll | internal/controller/health_server.go:422-441 | notifies exactly the owners of everything reported |
| Bracket.SessionMeaning | internal/controller/health_server.go:148-305 | after any envelopes the stream is in a snapshot iff a bracket is open, and its epoch and buffers are that bracket's alone |
| Bracket.CommitIsExact | internal/controller/health_server.go:197-243 | a SnapshotEnd commits exactly the accepted reports since the matching Begin, iff the epochs match and the instance is current |
| Bracket.BracketIsInvisible | internal/controller/health_server.go:193-305 | until its end a bracket touches neither store nor Services |
| Bracket.SnapshotReplacesNode | internal/controller/health_store.go:132-157 | a commit replaces the node's entries key by key; others survive unless named |
| Bracket.ConfirmedIff | internal/controller/health_server.go:197-243 | a SnapshotEnd is confirmed iff epoch and instance match, whatever the Begin announced |
| Bracket.TruncationUnnoticedIff | internal/controller/health_server.go:193-243 | a bracket short of its announced counts is confirmed and committed iff its End is otherwise good |
| Bracket.AckIsHighestIff | internal/controller/health_server.go:187-320 | an acknowledgement carries the highest number processed iff no earlier envelope of the instance carried a higher; the admission's is 0 |
| Bracket.AdmissionAcknowledgesNothing | internal/controller/health_server.go:172-187 | every adopted stream is first told 0, the highest processed only if the first number is 0 |
| Bracket.AckBelowHighest | internal/controller/health_server.go:187-206 | two envelopes after which the acknowledgement is 3 and the highest number 5 |
| Bracket.OverdueMeaning | internal/controller/health_server.go:254-321 | over every run, with 32 or more envelopes since the last acknowledgement the latest one was buffered or refused as old |
| Bracket.CollectedOnNode | internal/controller/health_server.go:343-400 | what is collected carries the stream's node, never one the agent claims |
| Protocol.TurnProvenance | internal/controller/health_server.go:148-323 | a turn keeps a key's evidence, drops it, or writes a report its authoritative stream heard or buffered |
| Protocol.BufferStep | internal/controller/health_server.go:245-305 | buffers hold only what was held or just heard under the same identity |
| Protocol.StepProvenance | internal/controller/health_server.go:148-323 | the same over every step of the system |
| Protocol.TurnAccepts | internal/controller/health_server.go:197-305 | a turn renews a key's evidence exactly when it accepts a report there, and otherwise keeps or drops it |
| Leases.EvidenceIsBacked | internal/controller/health_store.go:97-157 | everything ever stored traces back to a permitted receipt and an authoritative acceptance |
| Leases.LeaseSafety | internal/controller/readiness.go:35-86 | over every run, ready implies two live, positive, permitted and unreplaced leases |
| Leases.LeasesSuffice | internal/controller/readiness.go:35-86 | and two such leases with a ready Pod suffice |
| Fencing.AuthorityLasts | internal/controller/health_store.go:83-94 | authority over a node moves only by adoption there |
| Fencing.SupersededTurn | internal/controller/health_server.go:217-305 | a superseded stream changes nothing except by Retired, and ends exactly when exposed |
| Fencing.Fenced | internal/controller/health_server.go:154-305 | the same from an adoption until the next, over whole runs |
| Fencing.RetiredIsNotFenced | internal/controller/health_server.go:307-314 | the exception is real |
| Notification.FlipIsNotified | internal/controller/health_server.go:190-315 | a readiness flip notifies the claiming Service iff it is not due to a commit that mentions nothing the Service claims |
| Notification.BecomingReadyIsNotified | internal/controller/health_server.go:413-441 | every flip to ready is notified |
| Notification.NotifiedIff | internal/controller/health_server.go:216-315 | a turn notifies a Service iff it accepts, retires or commits something on a claim of that Service |
| Witnesses.SilentFlip | internal/controller/health_server.go:217-243 | a run for any claim of a ready Pod: a bracket that announces reports and sends none is confirmed, takes the attachment from ready to not ready, and notifies nobody |
| Witnesses.SupersededRetires | internal/controller/health_server.go:307-314 | a run in which a superseded stream's Retired removes its successor's fresh entry |
| Witnesses.NumberFalls | internal/controller/health_store.go:132-157 | a run in which a second snapshot replaces stored numbers by lower ones |
| Witnesses.UnknownIsNotResynced | internal/controller/health_server.go:245-253 | a run in which a report on an unknown attachment is acknowledged without asking for a resync |
| Witnesses.OthersBreakAgreement | internal/controller/health_server.go:154-181 | a run to a whole agreement that another process's next envelope undoes, by retiring the attachment or by turning up on the agent's node |
| Notification.OwnersAreClaimants | internal/controller/registry.go:97-117 | owner lookups find every Service that registers the attachment |
| Expiry.ReportedAtMostOnce | internal/controller/health_store.go:224-244 | between two reports of one key a step accepted a report under it |
| Expiry.MarkedWasReported | internal/controller/health_store.go:224-244 | a mark means an earlier report of that same acceptance |
| Expiry.PrunedWasReported | internal/controller/expiry.go:43-72 | what a prune within one window of a sweep removes had been reported |
| Expiry.LapseIsNotified | internal/controller/expiry.go:48-66 | the first sweep to find a ready claim's evidence stale notifies its Service |
| Expiry.ExpirySweeper.Tick | internal/controller/expiry.go:43-72 | each tick sweeps, notifies the owners of what expired, and prunes every n-th time; n makes that half a minute |
| Sequences.EntriesBounded | internal/controller/health_store.go:97-157 | no entry of a process carries a number above the last one processed, snapshot commits included |
| Sequences.NeverOutOfOrder | internal/controller/health_store.go:97-124 | over every run, a matching delta of the authoritative process is accepted, never refused as out of order |
| Sequences.NumberFallsIff | internal/controller/health_store.go:97-157 | a turn lowers a stored number of its own instance iff it commits a snapshot naming the key under a lower one |
| Sequences.NumbersNeverFall | internal/controller/health_store.go:97-157 | with envelopes delivered in the order of their numbers none ever falls |
| Publication.WrongIsAccountedFor | internal/controller/service_controller.go:155-200 | over every run, a wrong published condition has its Service waiting, a notification dropped, a silent commit behind it, or a lapse not yet swept |
| Publication.QuietMeansTrue | internal/controller/service_controller.go:155-200 | right after a sweep, a condition whose Service is not waiting nor dropped, and of which no commit was silent, is true |
| Publication.FullChannelDrops | internal/controller/service_controller.go:269-285 | a notification is lost iff the channel holds 1024 already and not the Service |
| Publication.RoomDropsNothing | internal/controller/service_controller.go:269-285 | while the channel has room for a step's notifications, every Service called is waiting after it |
| Overflow.NotificationLost | internal/controller/service_controller.go:269-285 | a run in which an attachment becomes ready while the channel is full of another Service: it stays published as not ready, its Service neither waiting nor called again |
| Publication.SilencedByUnmentioned | internal/controller/health_server.go:422-441 | only a commit that mentions nothing the Service registers is silent |
| Publication.AlwaysGood | internal/controller/expiry.go:43-72 | the invariant behind these, over streams, sweeps, prunes, reconciles and withdrawals |
| Probe.Machine.Observe | internal/agent/probe/state.go:55-73 | one sample's effect on state and streaks |
| Probe.CountersMeaning | internal/agent/probe/state.go:29-73 | of a machine made for f failures and s successes, the counters are the lengths of the maximal success and failure suffixes |
| Probe.LowThresholdIsOne | internal/agent/probe/state.go:29-43 | a threshold below one counts as one |
| Probe.HysteresisMeaning | internal/agent/probe/state.go:29-73 | made for f failures and s successes, the machine is in the state of the latest run of f failures or s successes, Unknown iff there was none |
| Probe.FlapBound | internal/agent/probe/state.go:29-73 | f times the moves to Unhealthy plus s times the moves to Healthy never exceed the samples |
| ProbeManager.Manager.SetTargets | internal/agent/probe/manager.go:66-86 | dropped keys lose machine and mark, new ones start fresh, the rest keep their machines |
| ProbeManager.Manager.FoldResult | internal/agent/probe/manager.go:228-245 | a result moves its key's machine only, a move is marked, a dropped key is ignored |
| ProbeManager.Manager.TakeChanged | internal/agent/probe/manager.go:130-136 | returns and clears the marks |
| ProbeManager.Manager.States | internal/agent/probe/manager.go:98-127 | exactly the targets with a verdict, once, in key order, each with its target's scope, network and address |
| ProbeRuns.TargetsNamed | internal/agent/probe/manager.go:70-73 | the targets are the keys named, each with its last spec |
| ProbeRuns.MachinesMeaning | internal/agent/probe/manager.go:66-136 | in every interleaving machines and targets have the last SetTargets' keys, and each machine folds the results since its key was last added |
| ProbeRuns.VerdictMeaning | internal/agent/probe/manager.go:98-127 | a manager made for f failures and s successes reports the kind of the latest run of f failures or s successes among those results, and nothing if there was none |
| ProbeRuns.UnchangedIsUnmoved | internal/agent/probe/manager.go:130-136 | a verdict not marked since the last read is the verdict of that read |
| Sender.Agent.Transition | internal/agent/agent.go:279-306 | remembers the verdict; changed iff new or different |
| Sender.Agent.Retire | internal/agent/agent.go:310-336 | forgets and returns exactly what vanished, each once |
| Sender.Agent.Sweep | internal/agent/agent.go:142-234 | the bookkeeping of a whole sweep |
| Sender.SweepMeaning | internal/agent/agent.go:279-306 | what is remembered after a sweep is the sweep, each id with its last verdict |
| Sender.ChangedMeaning | internal/agent/agent.go:279-306 | marked as changed is what the sweep saw and did not know, or saw at some point with another verdict than it remembered |
| Sender.GRPCSink.StreamOpened | internal/agent/grpc_sink.go:131-140 | a new stream owes a full snapshot |
| Sender.GRPCSink.Publish | internal/agent/grpc_sink.go:170-189 | snapshot or deltas by the three conditions; counter, epoch and debt afterwards, also when a send fails |
| Sender.PublishMeaning | internal/agent/grpc_sink.go:170-286 | a bracket of a new epoch goes out iff a snapshot is owed, missing or a refresh period old; numbers run on, a failed send having drawn one; only a whole snapshot pays the debt |
| Sender.GRPCSink.SendSnapshot | internal/agent/grpc_sink.go:212-251 | puts the bracket on the wire in order, or its prefix up to the failure |
| Sender.GRPCSink.SendDeltas | internal/agent/grpc_sink.go:253-286 | puts changed locals, changed paths and retirements on the wire in order, or a prefix |
| Sender.GRPCSink.AckReceived | internal/agent/grpc_sink.go:147-154 | a requested resync makes a snapshot due |
| Delivery.DeltasLand | internal/controller/health_server.go:245-315 | delivered deltas: retired ids gone, changed keys at their last report if the registry knows it, the rest as it was |
| Delivery.SnapshotLands | internal/controller/health_server.go:154-243 | a delivered full publish replaces the node's evidence with exactly what the registry knows of it |
| Delivery.OpeningIsUnseen | internal/controller/health_server.go:193-305 | a snapshot broken off before its end shows in the store as an adoption at most |
| Delivery.SupersededSnapshot | internal/controller/health_store.go:132-157 | once another process holds the node, a snapshot or a part of it leaves no trace |
| Delivery.DeltasMoveOnlyNamed | internal/controller/health_server.go:245-315 | any part of a publish of deltas moves only what it speaks of |
| Delivery.FeedOneBound | internal/controller/health_store.go:97-157 | no envelope pushes an instance's entries past the numbers it has used |
| Encodings.FullTells | internal/agent/grpc_sink.go:212-251 | after a snapshot every statement the registry takes stands, accepted now, and nothing unobserved is held for the node |
| Encodings.DeltaTells | internal/agent/grpc_sink.go:253-286 | after deltas what was told and not spoken of stands, what was spoken of stands anew or not at all |
| Encodings.WholeAgrees | internal/agent/grpc_sink.go:170-286 | once everything remembered has been told, local ids, readiness and path verdicts all agree |
| Encodings.DeltaRefinesFull | internal/agent/grpc_sink.go:170-286 | of what a snapshot would make stand, deltas make stand with the same verdict exactly what changed or had been told |
| Encodings.EncodingsAgree | internal/agent/grpc_sink.go:170-286 | of a sweep the registry takes whole, a snapshot makes any controller agree, and deltas one that agreed before |
| Encodings.AgreedDeltasAreFull | internal/agent/grpc_sink.go:170-286 | and then the two leave the same evidence of the node |
| Bystanders.LeavesIff | internal/controller/health_server.go:197-315 | evidence leaves in a turn iff it is retired, or its own node's snapshot commits without it |
| Bystanders.TouchedIff | internal/controller/health_server.go:148-323 | a turn of one process moves what another reported iff it accepts a report there, retires it or replaces its node |
| Bystanders.OnlyRetirementTouches | internal/controller/health_server.go:148-400 | what one node alone may speak for, other processes touch only by retiring it, unless they take the node over |
| Bystanders.OthersFileElsewhere | internal/controller/health_server.go:343-400 | while the agent is its node's authority nobody else files anything under the node |
| Agreement.LosesIff | internal/controller/health_store.go:83-265 | an event elsewhere changes the store's evidence on something told iff it is a turn that touches it or a prune that reaches it |
| Agreement.ToldIsHeld | internal/controller/health_store.go:83-265 | over every run, what was told and not lost stands in the store as the agent's, verdict and time |
| Agreement.ControllerAgrees | internal/agent/agent.go:125-275 | over every run, after a publish that got through: exactly which statements of the sweep stand, with their last verdict; nothing else is held; and if the registry takes all, the store mirrors the sweep |
| Agreement.AgreementLasts | internal/agent/grpc_sink.go:170-286 | while the agent is in step, what it told is what it stands by, and if it told everything the two agree in full |
| Agreement.RunGood | internal/controller/health_server.go:148-323 | the invariant behind these, over connects, losses, restarts, resyncs, probes, other streams, Services and prunes |
| Agreement.SweepFollows | internal/agent/agent.go:238-266 | in each path mode a sweep says again, or marks as changed, everything it stands by |
| Settled.OthersKeepAgreement | internal/controller/health_server.go:154-315 | an envelope of another process keeps a whole agreement iff it neither retires an attachment the agent remembers nor takes its node over |
| Settled.CalmAgrees | internal/agent/grpc_sink.go:170-286 | over calm runs, whenever the stream owes no snapshot the two agree in full |
| Settled.CalmMirrors | internal/agent/agent.go:125-275 | over calm runs, after every publish whose sends went out, snapshot or deltas, the store mirrors the sweep |
| Renewal.PublishRenews | internal/agent/grpc_sink.go:170-189 | after a publish nothing told is older than the last snapshot, itself within the refresh period |
| Renewal.AlwaysRenewed | internal/agent/grpc_sink.go:170-189 | that bound over every run |
| Renewal.ToldLasts | internal/agent/grpc_sink.go:170-286 | what was told stays told through outages, failed publishes and everything else that does not disturb it |
| Renewal.EvidenceStaysFresh | docs/design.md:424-429 | if refresh and time since a publish fit the window, each of its statements that stood is answered as said, never as unknown, until disturbed |
| Renewal.SweepStaysFresh | docs/design.md:424-429 | and if the registry took all of it, the whole sweep is |
| Renewal.SweepDecides | internal/controller/readiness.go:35-86 | while that publish is recent enough, an attachment of the sweep is decided ready iff its Pod is, all three checks passed, and its path was found ready, under its own ID or its node's domain by scope |
| Renewal.AssumedDecides | internal/agent/agent.go:240-256 | where paths are assumed ready the local findings alone decide |
| Slices.DropConflictingAddresses | internal/controller/endpointslice.go:218-241 | keeps exactly the attachments whose address is claimed once, and reports every claimant of the others |
| Slices.ClaimantsMeaning | internal/controller/endpointslice.go:218-241 | the claimants of an address are the Pods of exactly the attachments that carry it, in order |
| Ordering.StrLessMeaning | internal/controller/endpointslice.go:121-126 | strings are ordered by proper prefix or first difference |
| Slices.UncontestedMeaning | internal/controller/endpointslice.go:117-150 | what is kept is every once-claimed address, strictly increasing |
| Slices.SortedYieldsUncontested | internal/controller/endpointslice.go:121-138 | however ties fall in the sort, the same list is kept |
| Desired.ServicePorts | internal/controller/endpointslice.go:59-88 | a port each: the numeric target port if positive, else the Service port, TCP if no protocol is given, under its name; a warning for exactly the ports whose target is a non-empty name, in order |
| Desired.DesiredSlices | internal/controller/endpointslice.go:95-212 | computes the wanted slices, the decision of each endpoint, and the warnings, whatever the order of the families |
| Desired.BuildFamily | internal/controller/endpointslice.go:117-210 | one family's slice, decisions, a warning per contested address naming its claimants in sorted order, and one for truncation |
| Desired.SliceMeaning | internal/controller/endpointslice.go:117-185 | a slice shows the first thousand once-claimed addresses of its family in order, each with an explicit and correct ready condition |
| Desired.WantedMeaning | internal/controller/endpointslice.go:95-212 | a slice per family present, by name, labels, network, owner, type, ports and endpoints; its endpoints are those attachments no other of the family shares an address with, save behind a thousand smaller addresses |
| Desired.DecisionsMeaning | internal/controller/endpointslice.go:105-159 | the decisions returned are those of the endpoints published, one each, family by family |
| Desired.WantedPermutes | internal/controller/endpointslice.go:117-126 | the lister's order does not matter |
| Diff.SliceUpToDate | internal/controller/endpointslice.go:304-317 | a yes means: type, labels and network agree, and endpoints and ports pair up one to one, agreeing field by field; against a wanted slice without ties the answer is yes iff they do |
| Diff.AnswerMeaning | internal/controller/endpointslice.go:304-317 | the same of every answer some outcome of the sorts may give |
| Diff.ManagedMeaning | internal/controller/endpointslice.go:263-302 | the projections compared are the same, as collections, iff endpoints and ports pair up agreeing in address, ready, serving, terminating, hostname, node, target and in name, protocol, number |
| Diff.ExactIffSeparable | internal/controller/endpointslice.go:263-317 | no agreeing slice can be told to differ iff the wanted slice has no ties |
| Diff.SeparableMeaning | internal/controller/endpointslice.go:263-302 | no ties: endpoints that share their first address agree in all managed fields, and so do ports that share name and number |
| Diff.TiesAreAmbiguous | internal/controller/endpointslice.go:263-302 | ties are absent iff each projection sorts in one way only |
| Diff.ProtocolsTie | internal/controller/endpointslice.go:286-302 | one name and number over two protocols is a tie; no admitted Service has one |
| Diff.ProjectEndpoints | internal/controller/endpointslice.go:263-284 | one projection per endpoint, field by field with absent read as zero, sorted by address |
| Diff.ProjectPorts | internal/controller/endpointslice.go:286-302 | one projection per port, field by field with the protocol defaulting to TCP, sorted by name and number |
| Diff.EqualSlices | internal/controller/endpointslice.go:319-329 | element-wise equality |
| Reconcile.ApplySlices | internal/controller/endpointslice.go:348-438 | each wanted or stale name is settled and truthfully logged once, wanted ones first and in order; an error leaves the rest untouched; slices not labelled as this Service's and controller's never change |
| Reconcile.ApplyWanted | internal/controller/endpointslice.go:381-420 | create, nochange or update of one name |
| Reconcile.UpdateMeaning | internal/controller/endpointslice.go:396-415 | an update brings everything wanted and keeps the name and the labels and annotations of others |
| Reconcile.Converges | internal/controller/endpointslice.go:348-438 | after an error-free run exactly the wanted names are ours iff no slice of another's holds one; they say what is wanted, endpoint by endpoint and port by port, and keep the labels of others; stale ones are gone |
| Reconcile.SecondRunIsQuiet | internal/controller/endpointslice.go:348-438 | an immediate second run writes nothing and logs only nochange |
| Reconcile.PortsNeverTie | internal/controller/endpointslice.go:59-88 | ports with different names never tie |
| Reconcile.WantedConforms | internal/controller/endpointslice.go:95-212 | what desiredSlices produces for an admitted Service meets the assumptions of the two results above |
| Reconcile.PublishesReadiness | internal/controller/endpointslice.go:95-438 | from attachments to the API server: after an error-free run the slice of each family, unless another's holds its name, tells each unshared address, up to a thousand, with its readiness decision, and each Service port with the number to connect to |

## Left out

- gRPC transport, TLS, authentication and authorisation: a stream opens with an authenticated node name or with none.
- Network namespaces, netlink, container runtime and ICMP: link observations and probe results are arbitrary inputs.
- The Kubernetes client, watches, the event recorder, logs and metrics: the API server is a map of one namespace's slices with a faithful defaulting function and calls that may fail; other clients do not write while slices are applied, and resourceVersion conflicts are failures.
- Integer width: sequence numbers, epochs and counters are unbounded; wrap-around of uint64 is not modelled.
- The digest: the hash is taken as injective and its truncation to sixteen hex digits is not modelled.
- Concurrency inside one operation: an envelope, a publish, a sweep and a readiness decision are atomic and read the clock once, except that a tick's sweep and prune have their own readings. The windows where the agent's or the sink's lock is released between two reads are not modelled.
- Strings are sequences of characters ordered as Go orders bytes; parsing of IP addresses is a parameter.
- The Service and Pod lookups before desiredSlices.
- Session bookkeeping (SessionManager), the agent registry, network-status parsing and the command-line programs: only easy members.
- Agreement.ControllerAgrees: no other process presents the agent's instance id; a stream of the process has gone from the controller before its next one opens; a publish that fails midway ends the stream at once.
- Renewal.EvidenceStaysFresh: the agent's clock runs at a fixed distance from the controller's.
- Publication.WrongIsAccountedFor: a reconcile is one atomic step that succeeds, may come unasked, and speaks of every attachment of the Service, withdrawn duplicates included; a prune runs within the freshness window of a sweep, as in one tick; between channel and work queue nothing is lost.
- Desired.DesiredSlices: warning texts are reduced to their data.
