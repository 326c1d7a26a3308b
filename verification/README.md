# converge: a verified model of the broker, the row lifecycle and the cursors

converge reconciles resources by handing stages to worker processes. A *broker* claims rows
from a work queue, parks one goroutine per stage, and fans the stages out to worker streams
and to peer brokers; workers answer with a StageComplete that wakes the parked goroutine.
The rows themselves move under guarded SQL statements, fenced by a claim epoch, and the
HTTP API pages through them with opaque cursors. This project models those three parts and
proves what every run of them keeps.

**The broker and its mesh** (`internal/broker`). `Protocol.dfy` is one transition system over
any number of brokers, worker streams, stages and peers. One step is one critical section
under the executor's mutex, one channel operation, one frame on a route or one stream send;
a `select` is a choice among its enabled arms. The claim gate, timers, the network and the
workers may answer anything. A run is any sequence of enabled steps from the empty state, and
`BrokerTheorems.dfy` states what holds in every state of every run: gate-slot conservation at
every phase of a stream, no over-dispatch, at most one handoff of a lease token in the whole
mesh, no sleeping waiter behind a dropped stream, strict version routing, and provenance of
terminal results. `Departures.dfy` adds the waiter behind a departed peer, `ResultRace.dfy` when
a genuine result can lose to a synthetic one, and `AdvertisedCredit.dfy` that the credit a broker
advertises is exact. The parts are

- `SlotTable.dfy` (the two slot accounts of a stream), `Custody.dfy` (where a stage sits),
- `PlaceInvariant.dfy`, `SlotInvariant.dfy`, `SlotPlaces.dfy`, `SlotSteps.dfy`,
  `WakeInvariant.dfy`, `AwayInvariant.dfy`, `Provenance.dfy`, `Handoff.dfy` (what each step keeps),
- `StageLoss.dfy` and `Scenarios.dfy` (where the code gives less than its comments say: the
  exact condition, and a concrete run for each),
- `Executor.dfy` (the executor as an object whose methods are the source's, proved to act on
  the accounts as the steps do), `Readiness.dfy`, `LateFlips.dfy`, `LateFlipRuns.dfy` and
  `Subscribers.dfy` (presence and readiness counts, flips that come late, credit),
  `PeerHints.dfy`, `WeightedPick.dfy`, `Forwarding.dfy`, `PeerSet.dfy` (gossip, the choice of a
  peer, the peer set), `Attribution.dfy` (the coalescing batcher).

**Rows** (`internal/dbq`, `internal/api`). `WorkQueue.dfy` is the epoch fence over every run of
claims, reaps, releases, reschedules, heartbeats and compose stamps. `ResourceRows.dfy` is the
spec history, with the value flows and rollbacks that bypass it, and the freeze and teardown
state machine. `ApplyApi.dfy` is the API apply, `Pairing.dfy` what the other statements do to the
pairing of spec and version it keeps.

**Cursors** (`internal/api`). `Cursor.dfy` is the codec, `EventPages.dfy` the keyset query, the
handler and the walk a client makes by following the returned cursor.

`dafny verify dfyconfig.toml` checks the whole project.

## Where the code and its comments differ

The model follows the code. Each entry names a concrete run or input first, then the theorem
that says exactly when it happens.

- `claimGateSlot` runs after `attributeToStream` has released the mutex, so a drop in between
  leaves a gate token that nobody returns: `Scenarios.TokenCanBeStranded`;
  `BrokerTheorems.DriftExactlyWhen`.
- `unattributeFromStream` returns the gate token through `sentBy` and leaves `gateSub` set, so a
  later drop returns it again and `releaseSlot` finds the channel empty:
  `Scenarios.ReleaseCanMiss`; `BrokerTheorems.ReleaseMissesExactlyWhen`, and
  `BrokerTheorems.GateConservation` for how the counts stand meanwhile.
- `forward` requeues with `stop` already closed, so a stage can be abandoned although its
  buffer has room: `Scenarios.PulledStageCanBeLost`; `StageLoss.LostExactlyByStopArm`.
- `abandon` looks a token up, unlocks, and then sends, so a synthetic failure can still beat a
  genuine result into the channel: `Scenarios.GenuineResultCanLose`;
  `ResultRace.BeatenExactlyWhen`, `ResultRace.MadeUpExactlyWhen`.
- `onPeerGone` misses a stage whose push is not recorded yet: `Scenarios.ScanCanMissThePush`;
  `Departures.ScanMissesExactlyWhen`. The waiter still gets out: `Departures.DepartedPeerWakes`.
- A subscription that lists a pair twice and then withdraws it leaves the claim gate open:
  `Readiness.GateCanStayOpen`; `Readiness.GateOpenExactlyWhen`,
  `Readiness.ThereAndBackRestores`.
- A readiness flip that arrives after its stream was removed still moves the count. It can close
  the gate of a connected ready stream, at once or when a later disconnect takes the rest of the
  count, and slots are then offered for a pair that seems unserved, at once or when a later task
  ends: `LateFlipRuns.LateFlipMisleads`, `LateFlipRuns.FreeMisleads`,
  `LateFlipRuns.LeaveMisleads`; `LateFlips.GateClosedExactlyWhen`,
  `PeerHints.DishonestExactlyWhen`.
- The free-credit total is summed in 32 bits and can wrap: `WeightedPick.TotalCanWrap`; what
  `pushTask` does then is part of `Forwarding.PeerMesh.PushTask`.
- `composed_gen` can fall, by a resync that asks for a recompose: `WorkQueue.ComposedCanFall`;
  `WorkQueue.ComposedFallsExactlyWhen`.
- A flip, a compose update, a value flow and a rollback rewrite a spec without a history entry:
  `ResourceRows.HistoryCanDisagree`, `ResourceRows.RollbackCanDisagree`;
  `ResourceRows.AgreementLostExactlyWhen`.
- The freeze guard of the value flow lets a row that is being torn down through:
  `ResourceRows.DrainingCanBeRewritten`; `ResourceRows.DrainingChangesExactlyWhen`.
- A rollback and a value flow write a spec nobody validates, so a version-1 spec can end on
  version 2: `Pairing.RollbackBreaksPairing`; `Pairing.PairingLostExactlyWhen`.
- The comment on unquarantine calls it the only way out of a quarantine; a delete request is
  another: `ResourceRows.DeleteEndsQuarantine`; `ResourceRows.QuarantineEndsExactlyWhen`.
- The retirement gate fails open: `ApplyApi.GateFailsOpen`; `ApplyApi.RetiredGrowsExactlyWhen`.
- A flip drops the manifest's labels and config reference: `ApplyApi.RepeatedFlipCanChange`;
  `ApplyApi.RepeatedFlipIsIdentityExactlyWhen`.
- A page that ends on the zero time hands out no cursor: `EventPages.ZeroTimeCutsTheWalk`;
  `EventPages.Walk`.

## Model

| member | source | states |
|---|---|---|
| BrokerTheorems.GateConservation | internal/broker/connect.go:346-451 | in every state of every run and at every phase of a stream, the tokens in its slots channel plus one if an attribution was reversed are the loop's own one, one per in-flight stage gated on it, captured releases, and those stranded, regated or missed; none is regated while it runs, none doubled before its send failed, and the tokens never exceed the ceiling |
| BrokerTheorems.ReleaseMissesExactlyWhen | internal/broker/dispatch.go:120-128 | a captured release finds the slots channel empty if and only if the stream's attribution was reversed and no other token is accounted to it; never before the stream's send failed |
| BrokerTheorems.DriftExactlyWhen | internal/broker/dispatch.go:105-150 | a token is stranded, doubled, regated or missed by a step if and only if the step is, in turn, the stream's gate claim on a resolved stage, its reversal of a held attribution, a new gate claim on an in-flight stage still gated on it, or a release on its empty channel; each counts one |
| BrokerTheorems.NoOverDispatch | internal/broker/dispatch.go:54-103 | in every state of every run each stream's credit counter is exactly the number of in-flight stages charged to it and at most its ceiling |
| AdvertisedCredit.AdvertisedIsExact | internal/broker/fanout.go:388-402 | in every state of every run the credit a broker advertises for a pair is the ceilings of its connected, ready streams less the in-flight stages charged to them, while those ceilings fit in int32 |
| AdvertisedCredit.ChargedExactly | internal/broker/fanout.go:388-402 | those stages are exactly the broker's own that are attributed to a connected stream ready for the pair |
| BrokerTheorems.OnePlaceEverywhere | internal/broker/connect.go:243-260 | a lease token sits in at most one place of the whole mesh |
| BrokerTheorems.AtMostOnceHandoff | internal/broker/connect.go:433-443 | over all brokers of any run, a lease token is sent to a worker at most once |
| BrokerTheorems.ForwardedIsNotLocal | internal/broker/relay.go:426-433 | a reference queued or on the wire to a peer is in no buffer of the broker that forwarded it |
| BrokerTheorems.StrictPlacement | internal/broker/fanout.go:529-546 | a buffer holds only stages of its own pair, and a stream is only ever sent pairs it subscribed to |
| BrokerTheorems.CheckHappened | internal/broker/connect.go:407-411 | a passed readiness check in the history was made at an earlier step of the run, on that stream and task, and found it ready |
| BrokerTheorems.StrictRouting | internal/broker/connect.go:394-443 | whenever a task is sent to a worker, locally or after forwarding, an earlier step of the same run found that stream subscribed to exactly that pair and ready for it |
| BrokerTheorems.NoSleepingWaiter | internal/broker/connect.go:267-280 | after a stream has exited, every token it sent is resolved or its waiter has an enabled resolving step, pruning of the sent slice included |
| Departures.PushedWaiterKnows | internal/broker/dispatch.go:334-346 | in every run a stage whose frame is queued for a peer or on its wire, or whose push is recorded, has its waiter at that peer or dropping it |
| Departures.CopyHasHome | internal/broker/fanout.go:439-480 | in every run a reference another broker took over has a home broker whose waiter stands at a peer client of that broker, or is dropping it |
| Departures.BereftForGood | internal/broker/dispatch.go:347-371 | once the peer a stage was pushed to is cancelled, that stays so for the rest of the run and no step of anyone sets the waiter back |
| Departures.OwnPath | internal/broker/dispatch.go:333-371 | from there the waiter's own steps are enabled one after another and end with the stage out of flight, with what was decided before or the peer-departed failure |
| Departures.DepartedPeerWakes | internal/broker/dispatch.go:333-371 | in every state of every run a stage pushed to a peer since cancelled, recorded or not, is finished by at most three steps of its own waiter: out of flight, with a genuine Complete, a transient failure or its own deadline |
| Departures.DepartedCopyWakes | internal/broker/fanout.go:439-480 | the same for the home of every reference another broker took over |
| Departures.ScanMissesExactlyWhen | internal/broker/fanout.go:499-518 | in every run the departure scan misses an in-flight stage that is away to the peer if and only if its waiter is still between the push and the record |
| Departures.ScanWakesForGood | internal/broker/fanout.go:499-518 | a stage the scan found recorded is, in every later state of the run, about to be woken, woken, resolved or past waiting |
| ResultRace.BeatenExactlyWhen | internal/broker/dispatch.go:196-256 | at a Complete that resolves its stage, some continuation lets a synthetic failure into the channel before it if and only if one is already there, or an abandon has looked the stage up and not sent yet, or a departure scan has collected it and not sent yet |
| ResultRace.ReservedForGood | internal/broker/fanout.go:326-341 | otherwise the channel is that Complete's for the rest of the run |
| ResultRace.OnlyThatComplete | internal/broker/dispatch.go:347-371 | and a waiter that did not push its stage can then only receive that Complete, or give up |
| ResultRace.MadeUpExactlyWhen | internal/broker/dispatch.go:333-371 | some continuation hands a waiting stage a synthetic failure in place of a genuine Complete if and only if the channel is contested so, or the stage was pushed to a peer, whose departure its waiter also listens for |
| BrokerTheorems.TerminalProvenance | internal/broker/dispatch.go:427-436 | a stage that comes back terminal does so because some worker sent a terminal Complete with that token and message; a clean result is in full a worker's Complete for that token |
| BrokerTheorems.RunInv | internal/broker/dispatch.go:262-399 | every state of every run satisfies the place, slot, wake, provenance and handoff invariants together |
| SlotTable.ResolveSets | internal/broker/dispatch.go:157-189 | resolving a stage takes exactly its own contribution out of the gated and the charged stages of each stream |
| SlotTable.DecrementIsExact | internal/broker/dispatch.go:175-178 | under exact credit the guard on the decrement never decides anything: a charged stage's stream has a positive counter |
| SlotTable.ResolveKeeps | internal/broker/dispatch.go:196-230 | resolving keeps the references sound and the credit counters exact |
| SlotTable.AttributeKeeps | internal/broker/dispatch.go:62-79 | attribution keeps the references sound and the credit counters exact |
| SlotTable.UnattributeKeeps | internal/broker/dispatch.go:133-150 | reversing an attribution keeps the references sound and the credit counters exact |
| SlotInvariant.ResolveBalance | internal/broker/dispatch.go:157-189 | resolving moves a stage's gate token from owned to captured: none is created or lost |
| SlotSteps.CreditHasRoom | internal/broker/connect.go:355-442 | a loop that holds an unused slot has room for one more charged stage |
| SlotSteps.SlotInvKept | internal/broker/connect.go:346-451 | every step of the protocol keeps both slot accounts and the stages they stand for in agreement |
| WakeInvariant.WakeInvKept | internal/broker/connect.go:262-280 | every step keeps every sent token woken or still listed for abandon, and every waiter's peer known |
| Provenance.MailInvKept | internal/broker/dispatch.go:196-256 | every step keeps every value a waiter can receive either a worker's own Complete for that token or a non-terminal failure with a message |
| Handoff.HandoffInvKept | internal/broker/connect.go:394-443 | every step keeps handoffs unique per token and each preceded by a passed check |
| PlaceInvariant.PlaceInvKept | internal/broker/fanout.go:439-480 | every step keeps lease tokens unique over all places, hands consistent with their loops, and each place holding only what may be there |
| StageLoss.LostExactlyByStopArm | internal/broker/fanout.go:557-568 | a stage this broker owns and keeps in flight disappears from every place by a step if and only if that step is a fan-in's stop arm of requeue holding that stage |
| Scenarios.TokenCanBeStranded | internal/broker/connect.go:423-432 | a concrete reachable state with a stranded token |
| Scenarios.ReleaseCanMiss | internal/broker/dispatch.go:133-150 | a concrete reachable state, the stream not exited yet, where a captured release finds the channel empty |
| Scenarios.PulledStageCanBeLost | internal/broker/connect.go:23-33 | a concrete reachable state where a pulled stage is in flight and nowhere, its buffer empty |
| Scenarios.GenuineResultCanLose | internal/broker/fanout.go:326-341 | a concrete reachable state where a worker's Complete lost to a synthetic failure |
| Scenarios.ScanCanMissThePush | internal/broker/dispatch.go:334-346 | a concrete reachable state where the departure scan ran between a push and its record |
| Executor.ResolvedInSteps | internal/broker/dispatch.go:157-189 | the statements of drop and deliver, in order, amount to resolving the stage and executing the release it captured |
| Executor.ResolvedOnce | internal/broker/dispatch.go:208-226 | a drop or an unattribute that follows a deliver frees nothing more |
| Executor.ResolvedBalances | internal/broker/dispatch.go:157-189 | a whole drop or deliver keeps, for every stream, what its slots channel holds beyond its in-flight stages, and the credit exact |
| Executor.FanoutExecutor.RegisterStage | internal/broker/dispatch.go:298-302 | registers a stage, in flight, uncharged, with an empty result channel |
| Executor.FanoutExecutor.AttributeToStream | internal/broker/dispatch.go:54-103 | reports false exactly for a local stage already resolved, and charges a live local stage once |
| Executor.FanoutExecutor.ClaimGateSlot | internal/broker/dispatch.go:110-114 | records the gate owner; on a resolved stage the token is stranded |
| Executor.FanoutExecutor.ReleaseSlot | internal/broker/dispatch.go:120-128 | takes one token out of the slots channel, and never below zero |
| Executor.FanoutExecutor.UnattributeFromStream | internal/broker/dispatch.go:133-150 | frees the credit slot at most once and returns its gate token |
| Executor.FanoutExecutor.Drop | internal/broker/dispatch.go:157-189 | resolves a token once, a no-op on an unknown one |
| Executor.FanoutExecutor.Deliver | internal/broker/dispatch.go:196-256 | resolves like drop and offers the result once; a value already waiting stays; an unknown token changes nothing |
| Executor.FanoutExecutor.Abandon | internal/broker/fanout.go:326-341 | exactly the listed tokens still in flight end with a value waiting, a stream-dropped failure unless one was there |
| Executor.FanoutExecutor.OnPeerGone | internal/broker/fanout.go:499-518 | exactly the in-flight stages recorded as pushed to the peer end with a value waiting, a peer-departed failure unless one was there |
| Executor.FanoutExecutor.CompactSent | internal/broker/fanout.go:376-386 | the in-place filter leaves exactly the tokens still in flight, in order |
| Readiness.Bump | internal/broker/subscribers.go:100-107 | one count rises by one, all others stay, no phantom entry appears |
| Readiness.Drop | internal/broker/subscribers.go:113-127 | one count falls by one but not below zero, all others stay, no zero or empty entry survives |
| Readiness.DropUndoesBump | internal/broker/subscribers.go:100-127 | a drop after a bump restores the nested map itself |
| Readiness.RunExact | internal/broker/subscribers.go:136-211 | over every run of connects, disconnects, dispatches, resolutions and flips of registered streams, both counts equal the streams' contributions and no phantom entry exists |
| Readiness.GateOpenExactlyWhen | internal/broker/subscribers.go:221-225 | the claim gate is open for a pair if and only if a connected stream is ready for it or some stream listed it twice and then withdrew it |
| Readiness.CountsAreStreams | internal/broker/subscribers.go:136-225 | when streams list distinct pairs, the counts are the numbers of serving and of ready streams, and the gate is open exactly when a ready stream exists |
| Readiness.PresenceIsExact | internal/broker/subscribers.go:231-240 | a kind is listed if and only if a connected stream serves it at some version, over every run |
| Readiness.ThereAndBackRestores | internal/broker/subscribers.go:165-181 | connect, withdraw, disconnect restores the ready count if and only if the pair was listed at most once |
| Readiness.GateCanStayOpen | internal/broker/subscribers.go:165-181 | a run that ends with no stream connected and the gate open |
| Readiness.LateFlipHarmless | internal/broker/subscribers.go:191-211 | a flip for a removed stream leaves the counts alone exactly when the pair is not listed, is already in that state, or is withdrawn at count zero |
| LateFlips.CountIsNet | internal/broker/subscribers.go:100-211 | in every state of every run, flips early or late, the ready count of a pair is the net of all its bumps and drops less the lowest that net has been |
| LateFlips.GateClosedExactlyWhen | internal/broker/subscribers.go:221-225 | in every state of every run, flips early or late, the claim gate is closed for a pair if and only if that net has never been lower |
| LateFlips.NetIsStreams | internal/broker/subscribers.go:136-211 | that net is what the connected streams justify plus what strays left: the remaining listings of a stream removed after an RS-, and every effective late flip |
| Readiness.LooseRunCovers | internal/broker/subscribers.go:136-211 | over every run with flips early or late, the ready count of a pair covers its connected ready streams as long as no RS- of the pair came late |
| Subscribers.ParseSubscription | internal/broker/connect.go:100-115 | exactly the listed pairs in order, missing or non-positive versions as 1, and an error exactly for no kinds |
| Subscribers.SubscriberTable.AddSubscriber | internal/broker/subscribers.go:136-163 | adds the stream and raises both counts per listing, keeping exactness |
| Subscribers.SubscriberTable.RemoveSubscriber | internal/broker/subscribers.go:165-181 | lowers the counts, the ready one only for pairs not withdrawn, keeping exactness |
| Subscribers.SubscriberTable.SetStreamReadiness | internal/broker/subscribers.go:191-211 | moves the pair and its count once per actual change, keeping exactness on registered streams |
| Subscribers.SubscriberTable.HasAnyWorkerForKind | internal/broker/subscribers.go:231-240 | true exactly when some version of the kind has a positive count |
| Subscribers.SubscriberTable.CreditFor | internal/broker/fanout.go:388-402 | the free slots of the connected, ready streams, wrapped to int32, exact when they fit |
| Subscribers.CreditMeansRoom | internal/broker/fanout.go:388-402 | there is free credit exactly when some connected, ready stream has room |
| Subscribers.CreditImpliesPresence | internal/broker/fanout.go:410-421 | in every run with dispatches and late flips, free credit for a pair comes with an open gate for it, as long as no RS- of the pair came late |
| PeerHints.PeerClient.ApplyInterest | internal/broker/peer.go:68-81 | the two maps after an Interest: credit kept only when positive, presence set or removed |
| PeerHints.PeerClient.SpendCredit | internal/broker/peer.go:87-96 | one positive credit less, its entry gone at zero, presence untouched |
| PeerHints.HintIsLastFrame | internal/broker/route_frame.go:196-200 | after any frames and forwards a peer serves a pair exactly when its last frame said so, and its credit is that frame's less the forwards since |
| PeerHints.CreditWithinServesExactly | internal/broker/peer.go:68-96 | with any frames, that holds if and only if every pair's last frame announced a worker or its credit is used up |
| PeerHints.AdvertisedIsHonest | internal/broker/fanout.go:410-421 | every frame a broker advertises for a pair, in every run of its tables, offers slots only with a worker, as long as no RS- of the pair came late |
| PeerHints.DishonestExactlyWhen | internal/broker/fanout.go:404-421 | in every state of every run, flips early or late, the frame of a pair offers slots without a worker if and only if the net of its ready count is at its lowest so far and there is credit to offer |
| PeerHints.NextDishonestExactlyWhen | internal/broker/fanout.go:404-421 | for every operation, read off the state before it: the next frame does so if and only if the operation leaves no count and some credit |
| PeerHints.TurnsDishonestBy | internal/broker/fanout.go:404-421 | a frame turns so only by an RS- or a disconnect that takes counts, by a task that ends at count zero, or where the credit exceeds int32 |
| LateFlipRuns.LateFlipMisleads | internal/broker/subscribers.go:191-211 | a run in which the RS- of a removed stream closes the gate of a connected, ready one, and a peer records credit for a pair it believes unserved |
| LateFlipRuns.FreeMisleads | internal/broker/fanout.go:404-421 | a run in which the late RS- leaves the frame honest and a task that ends afterwards does not |
| LateFlipRuns.LeaveMisleads | internal/broker/subscribers.go:165-181 | a run in which the late RS- leaves the frame honest and a disconnect afterwards does not |
| WeightedPick.Pick | internal/broker/relay.go:404-416 | the first candidate whose int32 running total exceeds the draw; a draw below the wrapped total never falls back, however large the credits; when the total fits in int32 the candidate is the one whose stretch the draw falls in |
| WeightedPick.DrawBelongsOnce | internal/broker/relay.go:405-413 | every draw below the total selects exactly one candidate |
| WeightedPick.PickIsProportional | internal/broker/relay.go:405-413 | the number of draws that select a candidate is exactly its credit |
| WeightedPick.TotalCanWrap | internal/broker/relay.go:391-398 | two positive credits whose int32 total is negative |
| Forwarding.PeerMesh.PushTask | internal/broker/relay.go:381-434 | at most one peer gets the reference, with free credit or serving the pair, free credit first and then the candidate the draw falls on; none when the wrapped total is not positive and no other peer serves, and otherwise only because a queue is full |
| Forwarding.PeerMesh.AnyPeerServes | internal/broker/relay.go:362-370 | true exactly when some published peer serves the pair |
| Forwarding.PeerMesh.AdvertiseCredit | internal/broker/relay.go:322-338 | records presence by membership and appends the same frame to every queue with room |
| PeerSet.PeerSet.RefreshOnce | internal/broker/relay.go:249-310 | un-cancelled clients stay exactly the published ones, each cancelled one reported once, never this broker itself; a failed listing changes nothing, an unchanged address keeps its client |
| PeerSet.BuildNext | internal/broker/relay.go:255-293 | the next snapshot is the eligible members, with the old client exactly when its address is unchanged |
| PeerSet.CancelDeparted | internal/broker/relay.go:301-308 | exactly the clients the next snapshot drops become cancelled, each reported once |
| PeerSet.OneSideDials | internal/broker/relay.go:290-292 | for two brokers that publish each other exactly one dials |
| Attribution.BatchIsEventByEvent | internal/broker/fanout.go:46-62 | one batch of the latest event per id writes what the events write one at a time, when each id names one shard |
| Attribution.BatchDiffers | internal/broker/fanout.go:68-69 | and only then: otherwise there is a table on which the two differ |
| Attribution.Batcher.Flush | internal/broker/fanout.go:46-62 | leaves nothing pending and the table as if every event so far had been written on its own; the batch lists each pending id once |
| Attribution.Batcher.Receive | internal/broker/fanout.go:68-72 | keeps the latest event per id and flushes a full window of at most 500 ids |
| Attribution.Batcher.Run | internal/broker/fanout.go:63-77 | for any interleaving of events and ticks every batch has distinct ids and at most 500, a tick leaves nothing pending, and whenever nothing is pending the table equals event-by-event writing |
| WorkQueue.StaleStaysStale | internal/dbq/compose.sql.go:134-151 | an epoch once passed is never current again, whatever statement runs |
| WorkQueue.StaleClaimHasNoEffect | internal/dbq/work_queue_heartbeat.go:18-50 | once a row is re-claimed, reaped, released, re-pointed or deleted, no stamp and no heartbeat of an earlier claim changes anything for the rest of the run |
| WorkQueue.StampIsCurrent | internal/dbq/compose.sql.go:134-151 | a stamp that changes anything is made under the current claim, writes the generation it was queued for, never lowers composed_gen and never passes the resource's generation |
| WorkQueue.ComposedFallsExactlyWhen | db/migrations/00001_schema.sql:3046-3060 | composed_gen falls by a statement if and only if it is a recomposing resync of a composed resource |
| WorkQueue.ComposedCanFall | db/migrations/00001_schema.sql:3046-3060 | a run that ends with such a fall |
| WorkQueue.ComposedIsMonotone | internal/dbq/compose.sql.go:134-173 | over any stretch without a recompose composed_gen does not decrease and stays within the generation |
| WorkQueue.RunInv | internal/dbq/engine.sql.go:16-37 | in every run a queued generation lies between composed_gen and the resource's generation, and a ticket is never ahead of its row |
| WorkQueue.Tables.StampRow | internal/dbq/compose.sql.go:134-173 | one row is affected exactly when the whole fence holds, and nothing changes otherwise |
| WorkQueue.Tables.RefreshHeartbeats | internal/dbq/work_queue_heartbeat.go:34-50 | exactly the attested rows in range, unlocked and at their epoch are refreshed |
| WorkQueue.AttestAllKeeps | internal/dbq/work_queue_heartbeat.go:38-47 | a heartbeat batch changes nothing but heartbeats, and only of rows at an attested epoch |
| ResourceRows.HistoryIsBounded | internal/dbq/engine.sql.go:108-114 | in every run history generations are distinct and at most the row's generation |
| ResourceRows.HistoryAgrees | internal/dbq/engine.sql.go:45-127 | in every run without a compose update, flip, value flow or rollback of the row, the newest history entry is the live spec |
| ResourceRows.AgreementLostExactlyWhen | db/migrations/00001_schema.sql:2151-2157 | that agreement is lost by a statement if and only if it is a compose update, flip, value flow or rollback that rewrote the spec |
| ResourceRows.HistoryCanDisagree | internal/dbq/compose.sql.go:36-45 | runs in which a compose update, a flip and a value flow lose it |
| ResourceRows.RollbackCanDisagree | db/migrations/00001_schema.sql:3256-3295 | a run in which a rollback loses it |
| ResourceRows.GenerationRisesExactlyWhen | internal/dbq/compose_manual.go:69-83 | a row's generation never falls, rises by one whenever spec, version or config changes, and otherwise only by a reconcile or a flip to the same version and spec |
| ResourceRows.QuarantineEndsExactlyWhen | internal/dbq/compose_manual.go:152-172 | a quarantine ends by a statement if and only if it is a release or a delete request of the row |
| ResourceRows.DeleteEndsQuarantine | db/migrations/00001_schema.sql:3389-3397 | a run in which a delete request ends a quarantine nobody released |
| ResourceRows.QuarantineSurvives | internal/dbq/engine.sql.go:83-102 | a quarantine survives any stretch of a run without those two |
| ResourceRows.OrphanedSinceMark | internal/dbq/compose_manual.go:152-158 | in every run an orphan's deadline is the time of the mark that set it plus its grace, and the row has been orphaned ever since |
| ResourceRows.SweptAfterGrace | db/migrations/00001_schema.sql:2473-2524 | in every run a sweep that takes a row, by requesting its teardown or by deleting it at once, comes after the grace of the mark that orphaned it, with no re-adoption in between |
| ResourceRows.DrainingIsLeftAlone | internal/dbq/compose_manual.go:69-83 | compose updates, marks, re-adoptions, flips and quarantines leave a draining row exactly as it is |
| ResourceRows.DrainingChangesExactlyWhen | db/migrations/00001_schema.sql:2108-2157 | in every run a draining row changes by a statement if and only if it is an apply that edits it, a forced reconcile, a value flow that differs, or a rollback to another spec |
| ResourceRows.DrainingCanBeRewritten | db/migrations/00001_schema.sql:2108-2157 | a run in which a value flow rewrites a draining row |
| ResourceRows.Tables.UpsertResourceRow | internal/dbq/engine.sql.go:45-127 | the statement on the tables: rows, names, labels, history and the reported result |
| ResourceRows.Tables.Batch | internal/dbq/compose_manual.go:69-83 | a batched statement is its rows one after another, skipping rows that are gone |
| ResourceRows.SetUpdateIsRowByRow | internal/dbq/compose_manual.go:69-83 | one set-based UPDATE over rows with distinct ids equals its rows one after another |
| ApplyApi.Server.ApplyResourceManifest | internal/api/handlers_objects.go:28-165 | the handler, return by return, computes the apply decision and its effect on the tables |
| ApplyApi.ApplyKeepsPaired | internal/api/handlers_objects.go:42-100 | every apply keeps every row's spec valid for its pinned version, however it is routed |
| ApplyApi.SpecFitsVersion | internal/api/handlers_objects.go:42-100 | over every serial run of applies each resource's spec fits the version it is pinned to |
| Pairing.PairingLostExactlyWhen | db/migrations/00001_schema.sql:3273-3278 | over every run of all statements with validated applies and flips, a spec that fits its pinned version stops fitting by a statement if and only if a compose, a value flow or a rollback writes one that does not |
| Pairing.MisfitSince | internal/store/composer.go:104-114 | in such a run a misfit was written by one of those and has stood since; with composed specs valid in full, by a value flow or a rollback |
| Pairing.RollbackNeedsMove | db/migrations/00001_schema.sql:3262-3278 | a rollback can only write a misfit if the resource was moved to another version before |
| Pairing.RollbackBreaksPairing | internal/store/kindconfig.go:296-312 | a run of validated statements, apply, flip and roll back, that ends with a version-1 spec on version 2 |
| ApplyApi.RetiredGrowsExactlyWhen | internal/api/handlers_objects.go:70-77 | an apply pins a resource to a retired version if and only if it would move it there, every earlier check passes, the config read fails and the write goes through |
| ApplyApi.RetiredNeverGrows | internal/api/handlers_objects.go:175-184 | while a version is retired and config reads succeed, no run of applies pins another resource to it |
| ApplyApi.GateFailsOpen | internal/api/handlers_objects.go:72-77 | a create on a retired version that the gate lets through |
| ApplyApi.RepeatedUpsertIsIdentity | internal/api/handlers_objects.go:101-165 | repeating an apply that did not flip is the identity |
| ApplyApi.RepeatedFlipIsIdentityExactlyWhen | internal/api/handlers_objects.go:78-100 | repeating an apply that flipped is a no-op if and only if the row already carried the manifest's config and labels |
| ApplyApi.RepeatedFlipCanChange | internal/api/handlers_objects.go:78-100 | a run in which repeating a flip changes the tables again |
| Cursor.FirstBar | internal/api/cursor.go:46-49 | the first separator, or none |
| Cursor.LastBar | internal/api/cursor.go:113-117 | the last separator, or none |
| Cursor.CursorRoundTrip | internal/api/cursor.go:27-55 | a cursor with a non-zero time decodes to what it encoded, whatever the id holds; a zero time encodes to nothing |
| Cursor.EventCursorRoundTrip | internal/api/cursor.go:73-83 | an event cursor is non-empty and decodes to its time and sequence number |
| Cursor.ResourceCursorRoundTrip | internal/api/cursor.go:59-69 | a resource cursor decodes to its time and UUID |
| Cursor.NameCursorRoundTrip | internal/api/cursor.go:95-123 | a leaf cursor decodes to its name and id for every non-empty name, separators included |
| EventPages.NewestSorts | internal/dbq/events.sql.go:53-63 | the query's order is strictly descending by (created_at, id) and loses or repeats no row |
| EventPages.NextPage | internal/dbq/events.sql.go:53-63 | the page after an event of the full listing is the next stretch of it |
| EventPages.ListEvents | internal/api/handlers_events.go:10-41 | the page a cursor stands for, of at most the limit (1 to 500, as the API admits; any other limit is 100 to the store), and the next cursor, handed out exactly by a page as long as the limit asked for |
| EventPages.Walk | internal/api/handlers_events.go:17-39 | with a limit the API admits, following the cursor ends, yields a prefix of the events newest first, and all of them if and only if no page boundary with events after it has the zero time; with any other limit it yields the first 100 |
| EventPages.WalkIsComplete | internal/dbq/events.sql.go:53-63 | with non-zero timestamps that condition holds for every limit the API admits, and the full listing holds every event of the resource exactly once in order |
| EventPages.ZeroTimeCutsTheWalk | internal/api/cursor.go:27-30 | a table on which the condition fails |

## Left out

- Transport: HTTP/2 and Connect streams, TLS, SPIFFE identities, reconnect backoff and jitter; a route or a stream is a queue that may lose frames or fail.
- Pushing and priming provider configs, metrics, logging and cluster-view snapshots.
- releaseAbandoned and workIDsForTokens: they only select in-flight leases for a database call.
- pendingStage and configSub as heap objects: they are entries of the executor's tables named by their key, so aliasing between references is not modelled.
- WorkStream and dispatchStage as single procedures: their loops are the phases of the transition system, because what matters is how they interleave.
- Executor.FanoutExecutor: its methods run uninterrupted; the interleavings of their critical sections are those of the transition system.
- The readiness check reads a stream's sets without the mutex; it is taken as one atomic read.
- Lease tokens, queue ids and resource ids are taken as never repeating, as random UUIDs.
- Staleness of advertised credit for pairs other than the one a task edge re-advertises.
- Attribution.Batcher.Run: the write is taken to succeed; the source ignores its error and skips rows another writer holds.
- PeerSet.PeerSet.RefreshOnce: takes member ids as distinct, the key of the membership table; the shutdown of the mesh itself is not modelled.
- The claim's concurrency cap and shard ranges, AppendOutbox, the drainer, and reactor delivery; which rows a claim, reap, release or schedule picks, and the guards that only narrow it, are arbitrary here.
- ResourceRows.Tables.Batch: takes the ids of one batch as distinct, as the composer sends them.
- The composer's own diff, and which value a flow computes: a value flow carries the spec it leads to.
- Concurrent overlapping applies of one name: one apply is one atomic step; provider-config lookup and store validation are a single refusal.
- Base64, RFC 3339, UUID and decimal formatting: taken as functions that can be undone, with no separator in a formatted time or UUID.
- Other HTTP handlers, projections, the command-line client, configuration and the UI.
