# FluxIP: snapshots from device to file

FluxIP keeps track of the addresses of devices. A confirmed change of a device's address becomes a new
versioned snapshot for every Traefik provider that depends on the device, the snapshot travels over a session to
an agent, and the agent rewrites a directory of configuration files. Other actions rewrite a firewall rule. This
project models the concurrent parts of that chain and proves what the program promises about them.

A concurrent component is a state machine whose steps are the synchronous stretches between two `await`s, or the
bodies run under a lock. Where the program changes objects in place, a class with the same fields has one method
per stretch; each method's contract equates its effect with the value functions the machine is made of, and the
theorems are about every run of the machine. Automatic induction is switched off for every lemma, so each proof is
what its body says.

| file | what it models |
|---|---|
| `EventStreams.dfy` | the event table, its unique constraint, racing writers |
| `IpClient.dfy`, `Action.dfy`, `TraefikProvider.dfy` | the three aggregates, their reducers and writers' rules; provider store and publisher |
| `Histories.dfy` | what the last event to speak of a field says, for the reducers |
| `Handlers.dfy` | debounce settlement and status handlers: load, decide, append, schedule |
| `Ordering.dfy`, `Snapshot.dfy`, `Json.dfy`, `WireSize.dfy` | canonical content of a snapshot, its invalidation set, its JSON, its size |
| `KeyedMutex.dfy`, `Coordinator.dfy` | per-key promise chain; coalescing of triggers |
| `Publication.dfy` | the whole publication machine of one provider: account events, handlers' pending work, coordinator, mutex queue with separate reads, stream |
| `Versions.dfy`, `Causes.dfy`, `FinalState.dfy` | theorems about every run of that machine |
| `Settling.dfy` | that machine left to itself: the work runs out, and the final state is published |
| `Lapses.dfy` | runs of it that lose the final-state promise |
| `Deliveries.dfy`, `HistoryStability.dfy` | the derived delivery history, and its stability in that machine |
| `Sessions.dfy`, `SessionRuns.dfy` | registry and session handler; any number of sessions |
| `Render.dfy`, `Directory.dfy`, `OutputDirectory.dfy` | the agent's template data; the output directory, call by call |
| `Agent.dfy`, `AgentRuns.dfy`, `AgentSteps.dfy` | the agent process; every run of it; each step in terms of what the templates are shown |
| `Firewall.dfy`, `FirewallLock.dfy`, `LockedLedger.dfy`, `StalePlans.dfy` | rule selector, list rewriting, ownership ledger; the expiring lock; the ledger under the lock; two executions of one action at once |
| `EndToEnd.dfy` | publication and agent composed: from account state to files |

## What turned out

- "The final state always wins" is this promise: if an active provider's published groups differ from the current
  ones and those fit the limit, then a change still awaits its `schedule`, or the timer is armed, or a run is in flight
  that is dirty, has not finished reading, or is about to publish exactly the current groups. The last case is the
  window between the last read of a run and its append.
- The promise stands throughout a run of the machine if and only if no step breaks it (`PromiseIsExact`), and there are
  two kinds of steps that do. A run's publish fails while what is published is out of date, no change awaits its
  `schedule` and the coordinator was not triggered since the run began (`FailedRunIsExact`). Or a rename makes room for
  groups that are not published and did not fit, and nobody is left who will publish them (`RenameIsExact`).
  `FailedRunIsNotRetried` and `RenameIsNotFollowed` are runs in which that happens; the next change, or a hello, sync or
  resync that publishes, makes the promise stand again (`PublishRestores`).
- Where the promise stands it is kept in a bounded number of steps: whatever the machine does by itself takes some of
  the work that is left, it rests only when nothing is pending, and then the current state is published
  (`FinalStateIsPublished`).
- A reload of the templates is all or nothing except for a stale agent that never applied a snapshot:
  `ReloadIsAllOrNothing` gives the exact condition, `StaleReloadCanHalfHappen` the failing input and
  `StaleReloadRun` the run that gets there.
- A session closed while its hello is being answered leaves its heartbeat timer running: `ClosedDuringHello` is a
  run that does it, and `TimerOutlivesClose` says of every run that it is the only way. The timer's body does nothing
  on a closed session.
- The comment that the protobuf form is never larger than the JSON form needs a bound: it holds for entries of at
  most four addresses, or of any number of addresses below sixteen kilobytes, and fails for one entry of a hundred
  longer ones. The builder lists at most two addresses per entry.
- The firewall lock is safe exactly as far as its time reaches. An interleaving gives a sequential result, whatever
  the calls ask for, if and only if no other write falls between a call's read and its own write
  (`UnbrokenIsExact`); whatever does fall in between is overwritten (`WriteRestsOnFetch`). Locks that do not expire
  before the write ensure it (`NoUpdateIsLost`); one that does expire loses an update (`ExpiryLosesUpdate`).
- The lock does not protect the ownership ledger against two executions of the same action at once, since each is
  planned from the record read at its start. `StalePlansAreExact` says when an entry is left that the record does not
  own: both write a family, not the same address, and the first to write does not just repeat the owned one; or, if they
  are recorded in the opposite order, whenever they write different addresses. `StalePlansLeaveOrphan` is the run.

## Model

| member | source | states |
|---|---|---|
| `EventStreams.PostgresEventStore.Append` | backend/src/adapters/event-store-postgres/postgres-event-store.ts:46-77 | an append is rejected exactly if its number is taken, and otherwise adds this one row |
| `EventStreams.PostgresEventStore.ReadStream` | backend/src/adapters/event-store-postgres/postgres-event-store.ts:79-87 | a read returns the stream's rows by ascending number |
| `EventStreams.AppendExtends` | backend/src/domain/replay.ts:41-46 | in a gap-free stream, appending under length plus one succeeds, keeps it gap-free and extends it by this event |
| `EventStreams.AcceptedMeansUpToDate` | backend/src/adapters/event-store-postgres/postgres-event-store.ts:71-76 | a racing writer's append is accepted if and only if what it read is still the whole stream |
| `EventStreams.StreamsStayLegal` | backend/src/adapters/event-store-postgres/postgres-event-store.ts:46-77 | for any race of writers every stream stays gap-free, and every event in it obeyed its writer's rule applied to exactly the events before it |
| `IpClient.RacingWritersKeepDevicesLegal` | backend/src/adapters/http/routes/ip-clients.ts:151-177 | every device stream any race can produce is gap-free and legal, and a decommissioned device stays so in it |
| `IpClient.DecommissionedIsFinal` | backend/src/adapters/http/routes/ip-clients.ts:269-291 | a decommissioned device keeps that status and its addresses in every legal stream |
| `IpClient.ChangeIsExact` | backend/src/adapters/queue-bullmq/debounce-worker.ts:52-88 | each `ip_changed` was appended while enabled, starts from the replayed pair, moves, family by family, to what the latest report said or else to what was known, is what replay yields afterwards, and leaves nothing to an immediate second settlement |
| `IpClient.PairMovesOnlyByChanges` | backend/src/domain/ip-client/ip-client-aggregate.ts:33-71 | nothing but an `ip_changed` moves the last-known pair |
| `IpClient.ChangesTelescope` | backend/src/domain/ip-client/ip-client-aggregate.ts:56-63 | each change starts where the previous one ended, the first from nothing, and the last ends at the current pair |
| `IpClient.ReplaySays` | backend/src/domain/ip-client/ip-client-aggregate.ts:33-71 | what replaying a stream yields, field by field: what the last event that speaks of the field said |
| `IpClient.SettleSays` | backend/src/adapters/queue-bullmq/debounce-worker.ts:55-66 | when a settlement changes something, and to what: family by family the latest report's address, or the known one where it has none |
| `IpClient.LegalSays` | backend/src/adapters/http/routes/ip-clients.ts:151-177 | in a legal stream only the first event registers, and every later one was appended while its own condition held |
| `Action.RacingWritersKeepActionsLegal` | backend/src/adapters/http/routes/actions.ts:425-447 | every action stream any race can produce is gap-free and legal, and a detached action stays so in it |
| `Action.DetachedIsFinal` | backend/src/adapters/http/routes/actions.ts:481-503 | a detached action stays detached, and identity, type and device of an action never change |
| `Action.ReplaySays` | backend/src/domain/action/action-aggregate.ts:39-80 | what replaying a stream yields, field by field: what the last event that speaks of the field said, and each family's owned entry that of the last execution that wrote the family |
| `Action.LegalSays` | backend/src/adapters/http/routes/actions.ts:425-447 | in a legal stream only the first event attaches, and a status event is appended only while the action is there and not detached |
| `Handlers.SettleDevice` | backend/src/adapters/queue-bullmq/debounce-worker.ts:46-114 | a settlement extends the stream by exactly the change it decides on, if any: the device is enabled, and the latest report, with the known address for a family it leaves out, differs from the known pair; it triggers exactly the providers of the device with that change as cause; if others appended since its read it is rejected and does neither |
| `Handlers.FindReport` | backend/src/adapters/queue-bullmq/debounce-worker.ts:57-58 | the report found from the end is one with no report behind it, and none is found exactly if there is none |
| `Handlers.ScheduleDelivery` | backend/src/adapters/http/routes/actions.ts:58-67 | exactly the providers the given action states point at are triggered |
| `Handlers.ScheduleDevice` | backend/src/adapters/http/routes/ip-clients.ts:65-69 | exactly the providers of the device are triggered |
| `Handlers.ProvidersOfDevice` | backend/src/domain/traefik-provider/delivery-actions.ts:40-43 | the providers of a device's non-detached delivery actions, from the listing, each once |
| `Handlers.ChangeDevice` | backend/src/adapters/http/routes/ip-clients.ts:151-177 | enabling, disabling and decommissioning append exactly when the writer's rule allows it and nobody appended since the read, with the error cases, and then trigger the device's providers |
| `Handlers.ChangeAction` | backend/src/adapters/http/routes/actions.ts:425-503 | enabling, disabling and detaching append exactly when the writer's rule allows it and nobody appended since the read, with the error cases, and then trigger the action's provider |
| `Ordering.ListingIsUnique` | backend/src/domain/traefik-provider/snapshot.ts:83-90 | a set has one ascending listing, so the order in which its elements were met does not matter |
| `Ordering.BeforeSays` | backend/src/domain/traefik-provider/snapshot.ts:84 | the order of keys and ids is lexicographic: at the first place where two texts differ the smaller character decides, and a beginning comes before the whole |
| `Snapshot.BuildSnapshotContent` | backend/src/domain/traefik-provider/snapshot.ts:36-93 | for every order of the action ids the loops, cache and sorts produce the canonical content of the account state, which the rows below describe in the fields of its actions and devices |
| `Snapshot.ListedMeansDelivered` | backend/src/domain/traefik-provider/snapshot.ts:44-81 | a device is listed under a group if and only if an enabled delivery action of the provider names both and the device is enabled with a known address, all told by their fields |
| `Snapshot.MemberSays` | backend/src/domain/traefik-provider/snapshot.ts:53-55 | what makes an action a member, field by field: an enabled delivery to this provider that names a device, which it puts under its own group |
| `Snapshot.InfoSays` | backend/src/domain/traefik-provider/snapshot.ts:67-69 | what is said of a device, field by field: nothing unless it is enabled with an address that is known and not empty; else those addresses, IPv4 first, and the label without the white space around it, or the id if that leaves nothing |
| `Snapshot.GroupAppears` | backend/src/domain/traefik-provider/snapshot.ts:74-81 | a group that should list a device is in the content |
| `Snapshot.GroupsAreCanonical` | backend/src/domain/traefik-provider/snapshot.ts:83-92 | a group in the content lists somebody and appears once in ascending order of keys, and its entries are of exactly the devices delivered under it, ascending by name and then by id; each names its device, by the trimmed label or else the id, and lists its known IPv4 and then IPv6 address and nothing else |
| `Snapshot.ListingIsCanonical` | backend/src/domain/traefik-provider/snapshot.ts:83-90 | the sort lists under a group exactly the delivered devices, each once, ascending by the name they go by and then by id |
| `Snapshot.CanonicalIsUnique` | backend/src/domain/traefik-provider/snapshot.ts:83-90 | there is only one such listing, so the promised order determines the content |
| `Snapshot.ListDeliveryActions` | backend/src/domain/traefik-provider/delivery-actions.ts:15-37 | every delivery action that is not detached and names a device has exactly one row, with its own id, device, provider, group and status, and there is no other row; so the listing determines the providers of every device |
| `Snapshot.ProvidersSay` | backend/src/domain/traefik-provider/delivery-actions.ts:40-43 | the providers of a device are those that a delivery action naming the device and not detached points at, told by the fields of the actions |
| `Snapshot.TargetSays` | backend/src/adapters/http/routes/actions.ts:58-67 | an action points at the provider in its configuration if it is a delivery, whatever its status, and at none otherwise |
| `Snapshot.DeviceEventIsLocal` | backend/src/domain/traefik-provider/delivery-actions.ts:40-43 | a device event leaves the content of every provider outside the device's providers unchanged |
| `Snapshot.ActionEventIsLocal` | backend/src/adapters/http/routes/actions.ts:58-67 | an action event leaves the content of every provider other than its old and new one unchanged |
| `Json.TextIsUnique` | backend/src/domain/traefik-provider/snapshot.ts:95-98 | two contents have the same canonical JSON if and only if they are the same, so comparing what is hashed compares contents |
| `WireSize.SizeIsOfText` | backend/src/domain/traefik-provider/snapshot.ts:107-110 | the size the limit is checked on is the number of UTF-8 bytes of that JSON, escapes included |
| `WireSize.WireFitsJson` | backend/src/domain/traefik-provider/snapshot.ts:107-110 | with at most four addresses per entry, or short ones, the protobuf size is at most the UTF-8 JSON size |
| `WireSize.PublishedFitsOnWire` | backend/src/domain/traefik-provider/snapshot.ts:67 | what the builder produces within a 32-bit limit is within it on the wire |
| `WireSize.ManyLongAddressesDoNotFit` | backend/src/domain/traefik-provider/snapshot.ts:107-110 | without that bound the claim fails |
| `KeyedMutex.KeyedMutex.Enter` | backend/src/domain/traefik-provider/keyed-mutex.ts:5-9 | a job chains behind the key's tail and becomes the tail |
| `KeyedMutex.KeyedMutex.Leave` | backend/src/domain/traefik-provider/keyed-mutex.ts:12-14 | the tail is deleted only by the job that is it |
| `KeyedMutex.ChainIsFifo` | backend/src/domain/traefik-provider/keyed-mutex.ts:5-15 | every step of the chain is a step of a first-in-first-out queue per key: only the head runs, and settling removes it |
| `KeyedMutex.HeadIsNeverStuck` | backend/src/domain/traefik-provider/keyed-mutex.ts:5-15 | the head of a non-empty queue runs, may start, or waits for a tail that is about to settle |
| `KeyedMutex.MutexIsCorrect` | backend/src/domain/traefik-provider/keyed-mutex.ts:3-16 | in every run jobs of a key never overlap, start in arrival order, and an idle key has no entry |
| `Coordinator.SnapshotCoordinator.Schedule` | backend/src/adapters/agent-grpc/snapshot-coordinator.ts:36-49 | each distinct provider is triggered once: the cause is queued and a timer armed, or the run in flight marked dirty |
| `Coordinator.TriggeredSays` | backend/src/adapters/agent-grpc/snapshot-coordinator.ts:39-47 | what a trigger does to a provider's entry, new or old: its cause goes to the end; a run in flight is marked dirty and its timer left alone; otherwise the timer is armed and nothing marked |
| `Coordinator.SnapshotCoordinator.RunBegin` | backend/src/adapters/agent-grpc/snapshot-coordinator.ts:51-62 | a run takes all pending causes: the last is its own, the earlier ones are absorbed, and none is left pending; its flags say that it runs, without a timer and not dirty |
| `Coordinator.SnapshotCoordinator.RunEnd` | backend/src/adapters/agent-grpc/snapshot-coordinator.ts:80-87 | a dirty run arms the timer again and keeps its causes, a clean one forgets the provider |
| `Coordinator.SnapshotCoordinator.Stop` | backend/src/adapters/agent-grpc/snapshot-coordinator.ts:111-118 | stopping forgets everything that was pending |
| `Coordinator.CausesAreConserved` | backend/src/adapters/agent-grpc/snapshot-coordinator.ts:36-88 | accepted causes, in order, are those of the publish calls followed by those pending; at most one run is in flight; each run had a new trigger since the one before began |
| `Coordinator.NothingIsForgotten` | backend/src/adapters/agent-grpc/snapshot-coordinator.ts:43-47 | a cause not handed on has a timer armed or a dirty run in flight |
| `TraefikProvider.ProviderStore.Append` | backend/src/domain/traefik-provider/provider-store.ts:63-87 | one retry: the append succeeds unless rivals won both attempts, and its number is the stream's length |
| `TraefikProvider.SnapshotPublisher.Publish` | backend/src/adapters/queue-bullmq/snapshot-publisher.ts:54-121 | a publish call appends nothing for an inactive provider or unchanged content, a failure if too large, else the publication whose number is the version it returns; what it returns is changed if and only if the call appended a publication of exactly that snapshot under that number, and otherwise it is the last one published; rivals inside the append cost one retry, and losing both attempts is an error that leaves only their events |
| `TraefikProvider.SnapshotPublisher.Record` | backend/src/adapters/queue-bullmq/snapshot-publisher.ts:69-120 | compare, check the size, append, in that order, with one retry and the error after it: the event with its correlation id, absorbed changes and time, the result with its version and whether it is changed |
| `TraefikProvider.ReplaySays` | backend/src/domain/traefik-provider/traefik-provider-aggregate.ts:80-180 | what replaying a stream yields, field by field: what the last event that speaks of the field said; the last publication carries its event's number as version |
| `Versions.VersionDeterminesSnapshot` | backend/src/adapters/queue-bullmq/snapshot-publisher.ts:60-120 | two snapshots handed out under one version are equal in content, correlation id and time, and versions never decrease in mutex order |
| `Versions.ConsecutivePublicationsDiffer` | backend/src/adapters/queue-bullmq/snapshot-publisher.ts:66-79 | a publication never repeats the content of the one before |
| `Versions.InvHolds` | backend/src/domain/traefik-provider/traefik-provider-aggregate.ts:113-125 | in every reachable state the loaded base of the call that holds the mutex is still the last publication, and everything handed out is on record |
| `Versions.AnnouncedAreThePublications` | backend/src/adapters/agent-grpc/snapshot-coordinator.ts:63-64 | in every run, what the calls returned as changed, and so what is pushed, is exactly the publications on record, each once and in their order |
| `Versions.FinishHandsOut` | backend/src/adapters/queue-bullmq/snapshot-publisher.ts:65-119 | in every reachable state, a call that gets to its end hands out the last publication on record, which has the content the call built: the one that was there if it had it already, or the one just recorded; a content that does not fit is recorded as such and nothing handed out |
| `Causes.ChangesAreNamedOnce` | backend/src/adapters/agent-grpc/snapshot-coordinator.ts:57-62 | whatever the races and failures, a change is named at most once in a provider's whole stream |
| `FinalState.FinalStateWins` | backend/src/adapters/agent-grpc/snapshot-coordinator.ts:22-26 | from any reachable state in which the promise stands, and it stands at the start, it stands for as long as no step breaks it: if published and current groups differ, a change still awaits its `schedule`, the timer is armed, or a run in flight will take care of it |
| `FinalState.PromiseIsExact` | backend/src/adapters/agent-grpc/snapshot-coordinator.ts:22-26 | for every run: the promise stands throughout if and only if no step of it is a run's failure, or a rename that makes room, with nobody left who would publish |
| `FinalState.StepIsExact` | backend/src/adapters/agent-grpc/snapshot-coordinator.ts:36-88 | in every reachable state in which the promise stands, a step keeps it if and only if it is none of those |
| `FinalState.FailedRunIsExact` | backend/src/adapters/agent-grpc/snapshot-coordinator.ts:64-87 | when a run fails, the promise stands afterwards if and only if nothing was out of date, or a change awaits its `schedule`, or the coordinator was triggered since the run began |
| `FinalState.RenameIsExact` | backend/src/adapters/http/routes/traefik-providers.ts:211-232 | after a rename the published state is out of date if and only if the current groups fit under the new name and are not published; and the promise stands if and only if that is not so or somebody will still publish them |
| `FinalState.PublishRestores` | backend/src/adapters/queue-bullmq/snapshot-publisher.ts:54-121 | a publish that completes with the current name, or one under which the groups fit, leaves the promise standing, whatever was lost before |
| `FinalState.QuietMeansCurrent` | backend/src/adapters/agent-grpc/snapshot-coordinator.ts:36-88 | when nothing is pending and no step broke the promise since the start, or since it stood again, what is published is the current state |
| `Settling.WorkShrinks` | backend/src/adapters/agent-grpc/snapshot-coordinator.ts:36-88 | whatever the handlers, the coordinator and the publisher do by themselves, failures included, less work is left afterwards |
| `Settling.FinalStateIsPublished` | backend/src/adapters/agent-grpc/snapshot-coordinator.ts:22-26 | from any reachable state in which the promise stands, the machine left to itself rests after a bounded number of steps, only with nothing pending, and if no failure broke the promise the current state is then published |
| `Settling.RestIsReachable` | backend/src/adapters/agent-grpc/snapshot-coordinator.ts:36-88 | any run can go on to such a state without a failure |
| `Lapses.FailedRunIsNotRetried` | backend/src/adapters/agent-grpc/snapshot-coordinator.ts:65-87 | a run that shows it happens: the publish of a change fails, and with nothing pending any more the published state does not show it |
| `Lapses.RenameIsNotFollowed` | backend/src/adapters/http/routes/traefik-providers.ts:211-232 | a run that shows it happens: a content too large under the old name would fit under the new one, and nothing is pending that would publish it |
| `Deliveries.InputOrderIsIrrelevant` | backend/src/domain/traefik-provider/delivery-history.ts:54 | events with distinct numbers sort to the same sequence from any input order |
| `Deliveries.SourceIsLast` | backend/src/domain/traefik-provider/delivery-history.ts:59-66 | a row is about the last event whose correlation id is the change, else the last that absorbed it, and there is none exactly if no event names the change |
| `Deliveries.RowSays` | backend/src/domain/traefik-provider/delivery-history.ts:74-107 | what the row of a publication with number n shows: applied, at the time of the first event reporting n or a newer version as applied, if there is one; otherwise failed, with time and reason of the last event reporting exactly n as failed, if there is one; otherwise published, at its own time; and the version n. That of a failed publication shows no version, its own time and that it was too large, and that of an absorbed change only the version |
| `Deliveries.FindApplied` | backend/src/domain/traefik-provider/delivery-history.ts:56-78 | the first event that reports this or a newer version as applied: none before it does, and nothing is found exactly if no event does |
| `Deliveries.FindFailed` | backend/src/domain/traefik-provider/delivery-history.ts:57-79 | the last event that reports exactly this version as failed, with its time and reason; nothing is found exactly if no event does |
| `Deliveries.ActionRows` | backend/src/domain/traefik-provider/delivery-history.ts:60-107 | the nested loops and the precedence rule yield, per wanted change, the row of its source event |
| `Deliveries.DeriveDeliveries` | backend/src/domain/traefik-provider/delivery-history.ts:44-113 | every change gets its rows in the order of the actions, one for each action whose provider has an event naming the change, and none else; what each row shows is told event by event |
| `HistoryStability.SortingRestoresStream` | backend/src/domain/traefik-provider/delivery-history.ts:54 | any permutation of a gap-free stream sorts back to it |
| `HistoryStability.RowsAdvance` | backend/src/domain/traefik-provider/delivery-history.ts:74-106 | as a stream grows a row stays, keeps kind and version, moves only published, failed, applied; applied, combined and publish-failed rows are frozen |
| `HistoryStability.HistoryIsStable` | backend/src/adapters/agent-grpc/snapshot-coordinator.ts:57-62 | the same in every run of the publication machine, because no change is named twice |
| `Sessions.SessionRegistry.Register` | backend/src/adapters/agent-grpc/session-registry.ts:19-23 | the newest session takes the entry and the replaced one is returned |
| `Sessions.SessionRegistry.Remove` | backend/src/adapters/agent-grpc/session-registry.ts:26-31 | an entry is removed only by its own session |
| `Sessions.SessionRegistry.Push` | backend/src/adapters/agent-grpc/session-registry.ts:42-47 | a message goes to the provider's entry, if it has one |
| `Sessions.SessionRegistry.TerminateByToken` | backend/src/adapters/agent-grpc/session-registry.ts:49-54 | exactly the provider's session with this token is closed, and its entry removed |
| `Sessions.SessionRegistry.TerminateByAccount` | backend/src/adapters/agent-grpc/session-registry.ts:63-71 | exactly the account's sessions are closed, each once, their entries removed and they are counted, although each close changes the map walked over |
| `Sessions.AgentSessionHandler.Handle` | backend/src/domain/traefik-provider/agent-session-handler.ts:68-78 | a message joins the end of the chain |
| `Sessions.AgentSessionHandler.OnClosed` | backend/src/domain/traefik-provider/agent-session-handler.ts:81-88 | the first stretch of a close happens once, stops the heartbeat, unregisters only itself and waits for the messages that had arrived; a second close does nothing |
| `Sessions.AgentSessionHandler.Process` | backend/src/domain/traefik-provider/agent-session-handler.ts:119-186 | the first stretch of each kind of message: a closed session drops it; before the hello, a hello of version 1 or later registers the session, replacing another, and everything else closes it; after it, a bye closes, a report that is not stale waits for its append, a sync request for a publish, and any other message changes nothing |
| `Sessions.BeginSays` | backend/src/domain/traefik-provider/agent-session-handler.ts:119-186 | the same for the stretch that the theorems about runs use, message by message |
| `Sessions.AgentSessionHandler.Resume` | backend/src/domain/traefik-provider/agent-session-handler.ts:186-215 | the stretches after the awaits of a message: the connect is noted, the first snapshot sent, then the heartbeat started; nothing follows a report or a sync |
| `Sessions.AgentSessionHandler.ChainSettled` | backend/src/domain/traefik-provider/agent-session-handler.ts:88-92 | after the chain, a session that recorded no connect is done and any other goes on to record its end |
| `SessionRuns.RegistryHoldsLiveSessions` | backend/src/adapters/agent-grpc/session-registry.ts:15-31 | in every reachable state a provider's entry is its one live session: never a closed one, never two, and none is missing |
| `SessionRuns.OnlyItsOwnCloseEvicts` | backend/src/adapters/agent-grpc/session-registry.ts:25-31 | a registered session leaves the registry only in the stretch that closes it |
| `SessionRuns.EndingIsExact` | backend/src/adapters/agent-grpc/session-registry.ts:63-71 | closing the sessions registered for some providers, one step of the machine each, closes exactly those sessions and empties exactly their entries |
| `SessionRuns.ConnectThenDisconnectOnce` | backend/src/domain/traefik-provider/agent-session-handler.ts:81-107 | each session records at most one connect and at most one disconnect, and that after its connect |
| `SessionRuns.CompletedCloseIsRecorded` | backend/src/domain/traefik-provider/agent-session-handler.ts:88-106 | wherever the close cut in, a completed close of a session that recorded its connect has recorded its disconnect, unless the store failed or the provider was gone |
| `SessionRuns.CompletedCloseIsFinal` | backend/src/domain/traefik-provider/agent-session-handler.ts:82-89 | and nothing is recorded for the session afterwards |
| `SessionRuns.TimerOutlivesClose` | backend/src/domain/traefik-provider/agent-session-handler.ts:207-208 | in every run, a heartbeat timer runs on after its session's close exactly if some earlier step brought the hello of the closed session to its end |
| `SessionRuns.ClosedDuringHello` | backend/src/domain/traefik-provider/agent-session-handler.ts:251-267 | a run in which that happens |
| `Render.NewEntry` | agent/internal/render/render.go:38-52 | an entry keeps its name and addresses, and splits these by family: each list is exactly the addresses of its family in their order, unparsable ones in neither |
| `Render.DataFrom` | agent/internal/agent/agent.go:118-130 | the data a template sees of a snapshot: the provider's name, the version, the mark as given; exactly the keys with entries, and under each its entries in order, each with its name, its addresses and these by family |
| `Render.GroupIps` | agent/internal/render/render.go:226-232 | a key's entries flatten to all their addresses in order |
| `Render.FlattenFindsGroup` | agent/internal/render/render.go:226-232 | a key flattens to exactly its group's addresses, and a missing one to nothing |
| `Render.SnapshotReachesTemplates` | agent/internal/agent/agent.go:118-130 | from account state to template: every key flattens to exactly the known IPv4 and IPv6 addresses, told by the fields, of the devices delivered under it, ascending by name and then by id |
| `Directory.ReplaceStates` | agent/internal/apply/apply.go:172-202 | at every point of replacing a file there is at most one partly written temporary file more, and at the end exactly the file has its new content |
| `Directory.ApplyIsCrashSafe` | agent/internal/apply/apply.go:115-164 | wherever the calls are cut off: foreign names untouched, each managed name old, or complete and valid, or removed after all outputs were in place, at most one temporary file left |
| `Directory.ApplyReachesTarget` | agent/internal/apply/apply.go:137-158 | undisturbed, the calls lead exactly to the target directory |
| `Directory.TargetIsExact` | agent/internal/apply/apply.go:149-158 | in the target the managed files are exactly the outputs |
| `Directory.TargetAt` | agent/internal/apply/apply.go:73-91 | the target name by name: outputs in place, other managed files gone, everything else as before |
| `Directory.ManagedSays` | agent/internal/apply/apply.go:39-91 | a managed name starts with the prefix and ends in one of the three extensions, and that decides how its content is validated |
| `Directory.TempSays` | agent/internal/apply/apply.go:93-108 | what the cleanup takes for a leftover: a dot, the prefix, and the ending of a temporary file |
| `Directory.RerunRecovers` | agent/internal/apply/apply.go:93-108 | applying again from any crash point reaches the same directory, debris aside, and after the cleanup exactly the same |
| `Directory.ApplyIsIdempotent` | agent/internal/apply/apply.go:137-148 | applying the same outputs again makes no call that changes anything |
| `OutputDirectory.OutputDir.CleanupTemp` | agent/internal/apply/apply.go:94-108 | the cleanup removes exactly the leftover temporary files, and nothing else even if a call fails |
| `OutputDirectory.OutputDir.ListManaged` | agent/internal/apply/apply.go:75-91 | the listing is exactly the managed regular files, sorted |
| `OutputDirectory.OutputDir.WriteAtomic` | agent/internal/apply/apply.go:172-202 | success is the full replacement; after any failure the directory is in a state the undisturbed calls pass through |
| `OutputDirectory.OutputDir.Apply` | agent/internal/apply/apply.go:118-168 | a refused output changes nothing and is reported; success makes exactly the calls that reach the target; under any failing call every state passed through is one of the undisturbed ones |
| `OutputDirectory.Check` | agent/internal/apply/apply.go:122-130 | the first refused output decides the error |
| `OutputDirectory.RefusalSays` | agent/internal/apply/apply.go:115-130 | nothing is refused if and only if every output has the prefix and validates |
| `OutputDirectory.RefusalNames` | agent/internal/apply/apply.go:122-130 | the error names the first output that is refused: it lacks the prefix, or has it and does not validate |
| `OutputDirectory.ChangedSays` | agent/internal/apply/apply.go:137-148 | written are exactly the outputs whose file is not there with their content |
| `OutputDirectory.DroppedSays` | agent/internal/apply/apply.go:149-158 | removed are exactly the managed names that no output has |
| `OutputDirectory.EveryPointIsSafe` | agent/internal/apply/apply.go:170-202 | whatever fails and wherever the process dies, the directory is safe to be left with |
| `Agent.LoadDir` | agent/internal/render/render.go:118-148 | templates load only if all parse, no two produce the same output, and there is one |
| `Agent.RenderedIsAcceptable` | agent/internal/agent/agent.go:132-146 | what was rendered and validated is never refused by the apply, and has distinct names |
| `Agent.Process.Start` | agent/internal/agent/agent.go:77-105 | a start that succeeds keeps existing managed files, or renders empty groups if there are none; one whose templates do not load or render changes nothing; after any other failure the directory is the old one without some leftover temporary files, or where an undisturbed apply to that passes through |
| `Agent.Process.OnConnected` | agent/internal/agent/agent.go:172-182 | connecting sets the connected flag and nothing else, so that the offline timer stops to matter |
| `Agent.Process.OnDisconnected` | agent/internal/agent/agent.go:185-198 | disconnecting clears the flag and restarts the offline timer, and nothing else |
| `Agent.Process.OnSnapshot` | agent/internal/agent/agent.go:202-249 | an older version is ignored; anything else is rendered and applied, and only then remembered; the report says which, with the files |
| `Agent.Process.OnTick` | agent/internal/agent/agent.go:253-272 | a disconnected agent past the maximum renders stale once, and is stale only if that worked |
| `Agent.Process.OnReload` | agent/internal/agent/agent.go:275-301 | templates are swapped only if they render with nothing and with the last snapshot |
| `AgentSteps.StartSays` | agent/internal/agent/agent.go:77-105 | a start needs templates that render with nothing at all; the agent begins disconnected, unmarked, without a snapshot; files that are there are left alone, and otherwise they show nothing yet |
| `AgentSteps.SnapshotSays` | agent/internal/agent/agent.go:202-231 | a snapshot that is not older than the applied one and renders is remembered with its version, clears the mark and restarts the clock, and the files show it unmarked; any other changes nothing |
| `AgentSteps.TickSays` | agent/internal/agent/agent.go:253-272 | a tick of an agent that is disconnected, unmarked and past its maximum renders what it holds as stale: if that works, the files show it marked, and the agent is; any other tick changes nothing |
| `AgentSteps.ReloadSays` | agent/internal/agent/agent.go:275-301 | templates that render with nothing, and with the last snapshot if there is one, are taken, and the files show by them what the agent holds, with its mark |
| `AgentSteps.ReportSays` | agent/internal/agent/agent.go:202-249 | what is reported: ignored if older, failed if it does not render or a call fails, else every file with what its template made of the snapshot |
| `AgentSteps.FilesShowMark` | agent/internal/agent/agent.go:148-161 | in every reachable state after an apply, the managed files are exactly what the templates make of data with the last snapshot and the mark of the agent |
| `AgentSteps.MarkIsShown` | agent/internal/agent/agent.go:253-272 | in every run: where a tick sets the mark, the files are the rendering of data marked stale; where a snapshot is applied, that of data with this snapshot, unmarked |
| `AgentRuns.FilesMatchState` | agent/internal/agent/agent.go:148-161 | in every reachable state after the first apply, the managed files are exactly the rendering of the current templates with the last snapshot and the stale mark |
| `AgentRuns.MethodsFollowMachine` | agent/internal/apply/apply.go:170-202 | wherever a call fails, what a snapshot, tick or reload leaves behind is a step the machine allows, so the theorems about runs apply to it |
| `AgentRuns.VersionsNeverDecrease` | agent/internal/agent/agent.go:209-229 | the applied version never decreases |
| `AgentRuns.StaleOnlyWhenOverdue` | agent/internal/agent/agent.go:253-272 | the files are marked stale only by a tick of a disconnected agent, more than the maximum offline time after every snapshot applied and every connection lost before, and after the start if there was neither |
| `AgentRuns.StaleClearedOnlyByApply` | agent/internal/agent/agent.go:217-231 | the mark is cleared only by applying a snapshot, whose rendering the files then are |
| `AgentRuns.ReloadIsAllOrNothing` | agent/internal/agent/agent.go:282-298 | the exact condition under which a reload is all or nothing |
| `AgentRuns.StaleReloadCanHalfHappen` | agent/internal/agent/agent.go:282-298 | a stale agent with no snapshot takes a template it cannot render |
| `AgentRuns.StaleReloadRun` | agent/internal/agent/agent.go:253-298 | the run from an empty directory that gets there: start, a tick past the maximum, the reload |
| `AgentRuns.ForeignFilesUntouched` | agent/internal/apply/apply.go:73-91 | in every run, failing calls included, files neither managed nor temporary are never touched |
| `AgentRuns.NewestWins` | agent/internal/agent/agent.go:209-229 | however snapshots arrive, the agent holds the newest of them |
| `AgentRuns.DeliveryConverges` | agent/internal/agent/agent.go:202-234 | two agents delivered the same snapshots in any order and multiplicity end with the same files, those of the highest version |
| `Firewall.ResolvedIsUnique` | backend/src/domain/action/firewall-rule-selector.ts:26-39 | a selector resolves to a rule if and only if it selects that rule and no other |
| `Firewall.MatchSays` | backend/src/domain/action/firewall-rule-selector.ts:26-39 | in the fields of the rules: a selector resolves only to a rule it fits if it fits no other, to nothing exactly if it fits none, and is otherwise ambiguous with the number it fits |
| `Firewall.NextRules` | backend/src/adapters/actions/hetzner-firewall/hetzner-firewall-executor.ts:50-74 | the loop changes the address list of the resolved rule and nothing else, or yields nothing if the selector does not resolve: the sources of an incoming rule or the destinations of an outgoing one keep, in their order, what is not removed, followed by what is new, each once |
| `Firewall.RewrittenHas` | backend/src/adapters/actions/hetzner-firewall/hetzner-firewall-executor.ts:67-72 | an entry is in the rewritten list if and only if it was there and not removed, or was added |
| `Firewall.FamiliesAreApart` | backend/src/adapters/actions/hetzner-firewall/hetzner-firewall-executor.ts:25-27 | entries of the two families never coincide |
| `Firewall.Plan` | backend/src/adapters/actions/hetzner-firewall/hetzner-firewall-executor.ts:86-106 | an execution adds each of its addresses as a single-host network and removes the action's own previous entries of those families; without an address it is refused |
| `Firewall.LedgerHolds` | backend/src/domain/action/action-aggregate.ts:68-77 | after any executions, interleaved with others' updates that stay clear of its entries, the rule holds of all the action ever wrote exactly its current entry per family, and the selector still resolves to the same rule |
| `Firewall.OthersDoNotNotice` | backend/src/adapters/actions/hetzner-firewall/hetzner-firewall-executor.ts:42-44 | every other rule, and every entry the action never wrote, in order, is as if the action had never run |
| `FirewallLock.AcquireFirewallLock` | backend/src/adapters/actions/hetzner-firewall/hetzner-firewall-lock.ts:31-57 | the lock is taken only when free, with the full lifetime; giving up happens only after the maximum wait while another holds it |
| `FirewallLock.LockStore.Release` | backend/src/adapters/actions/hetzner-firewall/hetzner-firewall-lock.ts:7-13 | a release deletes only the holder's own key |
| `FirewallLock.ApplyFirewallRuleUpdate` | backend/src/adapters/actions/hetzner-firewall/hetzner-firewall-executor.ts:45-79 | success writes the update of what was there, any error writes nothing, and the lock is given back unless it has expired, in which case nobody else's is touched |
| `FirewallLock.NoUpdateIsLost` | backend/src/adapters/actions/hetzner-firewall/hetzner-firewall-executor.ts:36-44 | if no lock expires before its holder has written, the rules are always what the successful calls so far produce one after the other in lock order, and at most one call is at work |
| `FirewallLock.UnbrokenIsExact` | backend/src/adapters/actions/hetzner-firewall/hetzner-firewall-executor.ts:45-79 | an interleaving gives a sequential result for any rules and any changes if and only if no write falls between a call's fetch and its own write, whatever the timing |
| `FirewallLock.UnbrokenIsSerial` | backend/src/adapters/actions/hetzner-firewall/hetzner-firewall-executor.ts:45-79 | and then the rules are at every moment those of the calls that wrote, in the order of their writes |
| `FirewallLock.WriteRestsOnFetch` | backend/src/adapters/actions/hetzner-firewall/hetzner-firewall-executor.ts:45-79 | whatever the timing, a write leaves the update of what its call had fetched: of what was written in between, nothing is in it that it does not add itself |
| `FirewallLock.UnexpiredIsAlone` | backend/src/adapters/actions/hetzner-firewall/hetzner-firewall-lock.ts:4-13 | of the calls in the section at most one has a lock that has not expired |
| `FirewallLock.HolderKeepsLock` | backend/src/adapters/actions/hetzner-firewall/hetzner-firewall-lock.ts:4-13 | a lock that has not expired is ended by its own holder alone |
| `FirewallLock.ExpiryLosesUpdate` | backend/src/adapters/actions/hetzner-firewall/hetzner-firewall-lock.ts:15-16 | for any two updates there is a run in which both succeed, a lock expires between read and write, and one update is lost |
| `LockedLedger.LedgerHoldsUnderLock` | backend/src/adapters/actions/hetzner-firewall/hetzner-firewall-executor.ts:36-106 | however calls interleave, with no expiry before a write the rules are those of the executions and the others' updates in lock order: the selector resolves to the same rule, that rule holds of all the action ever wrote exactly what its record says, and everything else is as if the action had never run |
| `StalePlans.StalePlansAreExact` | backend/src/adapters/queue-bullmq/action-execution-worker.ts:350-377 | two executions planned from the same record: the rule holds exactly what the record then says if and only if they do not clash, when recorded in the order of their writes, and if and only if they do not differ, when recorded in the other order |
| `StalePlans.StalePlansLeaveOrphan` | backend/src/adapters/actions/hetzner-firewall/hetzner-firewall-executor.ts:86-106 | whenever they clash there is a run under the lock, in time, in which both succeed and an entry is left that the record does not own |
| `EndToEnd.FilesShowCurrentState` | backend/src/adapters/agent-grpc/snapshot-coordinator.ts:22-26 | once nothing is pending, an agent that was sent the last published snapshot, in whatever order and company, holds under every key exactly the known addresses, told by their fields, of the devices delivered there, and its files are exactly what its templates make of data with that content, version and the mark of the agent |

## Left out

- FinalState.FinalStateWins: a stopped coordinator is part of the machine but promises nothing. A handler that fails between its append and its `schedule` is not a step of the machine: its task would await its `schedule` for ever.
- FinalState.FailedRunIsExact: a failed append is taken to have changed nothing; one that commits while its acknowledgement is lost is not a step.
- SessionRuns.CompletedCloseIsRecorded: the recorded reason of a disconnect and the presence derived from it are not modelled; the adapter's error listener can close a session before its reason is known. An append of a connect or disconnect that commits while its acknowledgement is lost is not a step.
- FirewallLock.NoUpdateIsLost: a write that fails is taken to have changed nothing, and Redis errors during a release are not modelled.
- LockedLedger.LedgerHoldsUnderLock: the executions of the one action are serial, each planned from what the one before had recorded; two at once are in StalePlans, more than two are not followed.
- Firewall.LedgerHolds: executions are recorded; a write whose record is lost after two conflicts is not modelled, nor is the cleanup when an action is detached or drops a family.
- Directory.ApplyIsCrashSafe: a crash of the process, not a loss of power; directory syncing has no effect in the model, and names are no symbolic links. Random suffixes are taken not to name an existing file.
- AgentRuns.ForeignFilesUntouched: an output name taken by something that is no regular file makes every apply fail; runs with such an obstacle are not followed.
- Agent.Process.OnSnapshot: the render time is not part of the template data, so two renderings of the same snapshot are equal; version numbers are unbounded; the health file, the template checksums of the report and the Traefik check are not modelled.
- Render.DataFrom: the template data has no render time, whose value is the clock's.
- Agent.LoadDir: choosing the template files by their suffix and reading them is left to the caller. The source lists a directory in order of file names, so its final sort is not repeated; parsing and executing templates, and parsing YAML, TOML and addresses, are uninterpreted functions that may fail.
- Snapshot.BuildSnapshotContent: strings are sequences of Unicode code points and compared by code point, where the source compares UTF-16 units; the collation of names is an uninterpreted total preorder. Unpaired surrogates do not occur.
- Versions.VersionDeterminesSnapshot: the content hash is represented by the content itself: its JSON determines it, and SHA-256 is taken as free of collisions; a single process publishes.
- KeyedMutex.KeyedMutex.Enter: the publisher's own mutex and the provider store's are modelled apart; the store's retry loop has its rivals as a parameter.
- Handlers.SettleDevice: the projection in Redis, the fan-out of executions and retries of the queue are not modelled.
- Handlers.ChangeDevice: the check that the device belongs to the caller's account, and what its response shows.
- Handlers.ChangeAction: the check that the action belongs to the caller's account, and the cleanup of the firewall when an action is detached.
- Sessions.SessionRegistry.TerminateByAccount: closing by provider and closing all are the same walk with another test or none, and are not repeated.
- Account deletion removes streams; every theorem about streams is about accounts that are not deleted.
- Rules that span streams or requests, such as unique names, token limits, the device limit, and one delivery action per device and provider, are not invariants under concurrent requests.
- gRPC, BullMQ, Redis, Postgres, HTTP, SMTP, logging, metrics, configuration, migrations and the web interface: I/O or user interface.
- Credentials, tokens and encryption: outside the model.
