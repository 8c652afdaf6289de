# F4MP2 replication core: a verified model

F4MP2 lets several players share one game world. A *service* owns the session: it seats players by GUID, relays
their movement, decides combat, runs the workshop and tells every client what changed. A *plugin* in each game mirrors
that session, emits the local player's movement, smooths remote players and hooks the game by patching its code. This
project models both sides and proves what holds over every run of them.

One turn of the server loop is "clear the outputs, handle one envelope, tick" (`service/src/service_main.c:164-195`).
A run is a sequence of turns; a refused envelope skips the tick and sends nothing. Functions over values specify each
step; classes with the source's own fields and loops are proved to compute them.

| part | modules |
|---|---|
| slots, messages | `Slots`, `Protocol` |
| session machine | `Combat`, `Relay`, `Dialogue`, `Quest`, `Session`, `TransportLoop` |
| its invariants | `Seating`, `Lifecycle`, `Workshop`, `QueueBound`, `Service`, `Counters`, `Forgetting`, `Takeover` |
| what its requests mean | `Ballistics`, `Construction`, `Timeouts`, `Answers`, `Unheard`, `Conversation`, `QuestHistory` |
| client mirror | `Proxy`, `Mirror`, `Delivery`, `MirrorRequests`, `JoinReplay`, `MirrorTurns`, `MirrorJoin`, `SmallWorld` |
| its other half | `Holding`, `Coverage`, `Identity` |
| remote players on the client | `Stage`, `StageAgreement`, `StageManager`, `Smoothing`, `SmoothStage`, `Landing` |
| movement replication | `Movement`, `Convergence`, `SessionRelay`, `StateNews`, `StageRelay`, `StageRoom`, `Replication`, `Equipment`, `TwoPlayers`, `SampleQueue` |
| wire codec | `Wire`, `Codec`, `Packets`, `PacketReading` |
| x64 patch planner | `Decoder`, `Opcodes`, `PatchPlan`, `Patching`, `Realization`, `Gateways` |

## What the code does not promise

Eleven expectations fail in the code. Each is kept as it is, with the exact condition under which it holds and a run or
an input that shows it failing.

- *A joining client mirrors the session.* The replay sends a spawn and a state per actor into the 64-entry queue. If the
  queue ends between the two, the client keeps an actor without its flags: `MirrorJoin.JoinMirrorsIffUnsplit`, reached
  in `Service.SplitIsReachable`, impossible with at most 26 hostiles (`SmallWorld.SmallWorldsMirror`).
- *A joining client holds everything in range.* It does if and only if the last spawn of its replay is within the queue:
  `Coverage.JoinCoversIffFits`, failing in `Coverage.OverflowIsReachable`.
- *Scene, runtime and driver agree.* A spawn that the spawn contract refuses leaves the scene showing a player that the
  runtime and the driver do not know: `StageAgreement.StateKeepsAgreementIff`, reached in
  `StageAgreement.RefusalIsReachable`.
- *The service stores the newest state delivered.* A reconnect keeps the relay counters of the slot, so an emitter that
  restarts its numbering is heard if and only if the newest of its delivered messages has caught up with them:
  `Convergence.RestartIsStarved`, in the server loop `SessionRelay.ReconnectStarves`, reached in
  `Replication.RestartIsReachable`.
- *A change of equipment reaches the clients.* An input state is sent again under the old sequence and tick, and before the
  player's first state it names nobody. A client shows the new equipment if and only if it showed it already, or the
  player has sent a state and the client's stage takes that state once more: `Equipment.EquipmentReachesIff`, over whole
  runs `Equipment.EquipmentIsLost`. From boot it is lost after the first state in `TwoPlayers.ChangedEquipmentIsLost` and
  before it in `TwoPlayers.EarlyEquipmentIsUntold`.
- *A client's record of a player never goes back.* A departure forgets it, so the record is what the states since the last
  departure leave behind: `StageRelay.RecordIsSinceLeft`. It is the service's if and only if a message with the service's
  sequence arrived since then: `Replication.EndToEnd`. A late copy of an older state puts a departed player back on stage
  in `StageRoom.OldStateReturns`, after a run of the service from boot in `TwoPlayers.DepartedReturns`.
- *A GUID keeps its player.* It is bound after a HELLO if and only if it was bound before, or has 1 to 63 bytes and one of
  the 32 registry entries is free: `Seating.HelloBindsGuid`. Otherwise the next HELLO is somebody else's:
  `Seating.UnboundGuidLosesPlayer`, reached with a GUID of 64 bytes in `Forgetting.LongGuidIsForgotten` and with a full
  registry in `Forgetting.FullRegistryForgets`.
- *A connected client keeps its seat.* A HELLO takes it away, and says nothing to the client, if and only if its GUID is
  bound to the one player that the client sits as: `Takeover.HelloDisplacesIff`. Several GUIDs may be bound to one player,
  so it happens in `Takeover.TakeoverIsReachable`.
- *A player whose requests are taken is not dropped for silence.* Moving and scrapping an object and selecting a line are
  no sign of life. A player stays connected if and only if its silence never outlasts the timeout:
  `Timeouts.StaysIffSpeaks`. One that moves its object with every tick is dropped in `Unheard.BusyPlayerIsDropped`.
- *A settled objective stays settled in the next update.* The policy compares with the first stored objective of the same
  id only: `Quest.SettledIsSafeIffUnshadowed`, reached in `Quest.DuplicateIdsUnsettle`.
- *A settled objective stays settled over a run.* An update that omits it forgets it: `Quest.SettledIsSafeIffCarried`, over
  runs `Quest.CarriedStaysSettled`, reached in `Quest.OmissionForgets`.

Two smaller observations: publishing choices does not activate a dialogue, and the planner accepts a site that is already
patched (`Patching.RepatchNests` shows that the two hooks then nest). The stubs themselves jump through `rax`.

## Model

| member | source | states |
|---|---|---|
| `Slots.FirstMatch` | service/src/service_indices.c:3-42 | the search loop repeated for every table returns the first matching slot, or the length |
| `Combat.TargetIsFirstBest` | service/src/authority_core.c:42-59 | a shot hits iff some live hostile is in the cone, and then the first slot no other score beats; the -1000 guard never suppresses a hit |
| `Combat.ConeScoreBound` | service/src/combat_geometry.c:23-44 | every in-cone score is at least min_dot - 1, far above the guard |
| `Combat.FindTarget` | service/src/authority_core.c:46-59 | the argmax loop computes the specified target |
| `Ballistics.ScoreIff` | service/src/combat_geometry.c:23-44 | with an exact square root: a target scores iff it is not at the muzzle, within 4096 units and within the cone, and the score is the cosine less the distance over 4096 |
| `Ballistics.HitIsInCone` | service/src/authority_core.c:42-59 | whatever is hit is a live hostile within range and cone |
| `Ballistics.ConeIsHit` | service/src/authority_core.c:42-59 | if a live hostile is within range and cone, something is hit |
| `Ballistics.NearerIsHitFirst` | service/src/authority_core.c:46-59 | of two live hostiles on one ray the farther is never hit |
| `Ballistics.NormalizedIsUnit` | service/src/combat_geometry.c:12-21 | the direction of a shot is the requested one at length one |
| `Ballistics.FireAcceptedIff` | service/src/authority_validation.c:47-73 | a fire intent is accepted iff the host rules combat, it is the sender's own, with a weapon, from within the bubble, in a proper direction, with a free line of sight 1024 units ahead |
| `Seating.SeatFindsSlot` | service/src/transport_loop.c:525-540 | a HELLO is refused iff its GUID is unbound and all seven ids are connected; otherwise the sender sits in the slot its id names and no other slot changes; a bound GUID always finds its slot |
| `Seating.FreeIdMatchesFreeSlot` | service/src/world_state_store.c:15-28 | the first free id and the first free slot, searched independently, always name the same slot |
| `Seating.RunKeepsSeating` | service/src/session_manager.c:31-59 | over every run slot i holds id 0 or i+1, no slot loses its id and no binding is changed or removed |
| `Seating.HelloBindsGuid` | service/src/session_registry.c:23-40 | a GUID is bound after an accepted HELLO iff it was bound before, or has 1 to 63 bytes and an entry is free |
| `Seating.UnboundGuidLosesPlayer` | service/src/session_registry.c:23-40 | a GUID that an accepted HELLO leaves unbound is refused or seated as somebody else the next time |
| `Forgetting.LongGuidIsForgotten` | service/src/transport_loop.c:515-537 | from boot, a GUID of 64 bytes is welcomed as player 1 and not again |
| `Forgetting.FullRegistryForgets` | service/src/session_registry.c:33-40 | from boot, after 32 visitors an ordinary GUID is welcomed but not given its player again |
| `Seating.BoundGuidKeepsPlayer` | service/src/session_registry.c:11-40 | a bound GUID is welcomed with the same id after any run, from any connection |
| `Takeover.HelloDisplacesIff` | service/src/session_manager.c:48-59 | a HELLO unseats another connected client iff its GUID is bound to the one player the client sits as; no message of the handler goes to that client |
| `Takeover.TakeoverIsReachable` | service/src/transport_loop.c:525-540 | from boot, a visitor that returns unseats the visitor who was given its player in the meantime |
| `Timeouts.TickDropsIffOverdue` | service/src/transport_loop.c:456-472 | a tick drops exactly the connected players not heard of for longer than the timeout, and changes no other slot |
| `Timeouts.TickAnnouncesDropped` | service/src/transport_loop.c:467-470 | each of them is announced to everyone still connected when its turn comes |
| `Timeouts.TickAnnouncesOnlyDropped` | service/src/transport_loop.c:467-470 | nobody else is announced |
| `Timeouts.TurnOnSeat` | service/src/transport_loop.c:541-680 | what a turn does to the clock, to a player's last sign of life, and exactly when its seat is taken afterwards and by whom |
| `Timeouts.StaysIffSpeaks` | service/src/transport_loop.c:456-472 | over every run a player that neither departs nor is displaced stays connected iff its silence never outlasts the timeout |
| `Unheard.BusyPlayerIsDropped` | service/src/transport_loop.c:642-651 | from boot, a player that moves its object with every tick, successfully, is dropped when the timeout has passed |
| `Answers.AcceptedIff` | service/src/transport_loop.c:493-680 | which envelopes are accepted, for every request |
| `Answers.HelloIsAnswered` | service/src/transport_loop.c:513-551 | an accepted HELLO is answered with the id it is seated as, the settings and the profile then stored, and in the same turn with the stored state of every other connected player |
| `Answers.ReplayRange` | service/src/transport_loop.c:284-334 | the replay covers the bubble's radius, or 512 units, around the stored position of the joining player |
| `Answers.PingIsAnswered` | service/src/transport_loop.c:561-567 | a ping is answered with its time, to the sender alone |
| `Answers.SelectionIsRecorded` | service/src/dialogue_selection_policy.c:3-24 | an accepted selection is recorded with its player and changes nothing else |
| `Answers.DepartureIsTold` | service/src/transport_loop.c:568-577 | a departure is told to everyone connected |
| `Answers.HitIsTold` | service/src/transport_loop.c:607-626 | everyone connected is told the damage, the state it leaves and the death if there is one, in the shooter's name |
| `Service.ConnectedIdsAreDistinct` | service/src/transport_loop.c:525-537 | in every reachable state connected ids are distinct and at most seven players are connected |
| `Service.BootIsOk` | service/src/service_main.c:121-138 | what main sets up satisfies every invariant of the loop head |
| `Service.DefaultWorld` | service/src/service_main.c:121-138 | the world main sets up, slot by slot |
| `Service.ReachableIsOk` | service/src/service_main.c:164-195 | every reachable state satisfies the seating, actor and workshop invariants |
| `Counters.CountersDoNotWrap` | service/src/transport_loop.c:62-76 | after n turns from boot with h HELLOs: tick at most n, object id counter at most 1000 + n, transmit sequence at most 49 (n - h) + 16425 h, and no slot has judged more than n states |
| `Lifecycle.FireHits` | service/src/authority_core.c:34-83 | what a fire intent reports is what it did: nothing, or one quarter off one live hostile, killed iff that was its last; a valid intent hits the first best-scoring one and misses iff none is in the cone |
| `Lifecycle.TickBuries` | service/src/transport_loop.c:474-490 | a freshly dead actor is marked, announced to every connected player and removed within one tick |
| `Lifecycle.TurnHits` | service/src/authority_core.c:140-152 | no dead actor is in use at the head of the loop; a turn changes actors exactly as its damage report says |
| `Lifecycle.CombatLifecycle` | service/src/authority_core.c:61-83 | over every run health and reported damage add up to full health, DEAD iff health is zero, at most one death event |
| `Service.HostileLifecycle` | service/src/authority_core.c:21-32 | the same from boot, for every spawned hostile |
| `Workshop.WorkshopConservation` | service/src/authority_core.c:85-137 | over every run each settlement counts exactly its in-use objects within budget, object ids are unique, every object is whitelisted and within its settlement's radius |
| `Workshop.ReplaceKeepsCounts` | service/src/world_state_store.c:46-59 | replacing one object and adjusting one count by the difference keeps all counts exact |
| `Workshop.BuildKeepsWorkshop` | service/src/authority_validation.c:28-45 | an accepted or refused build keeps the workshop invariant |
| `Workshop.MoveKeepsWorkshop` | service/src/authority_validation.c:75-89 | a move keeps it |
| `Workshop.ScrapKeepsWorkshop` | service/src/authority_core.c:127-137 | a scrap keeps it |
| `Construction.TurnOnPieces` | service/src/authority_core.c:85-137 | every turn does to the map of placed pieces exactly the work its envelope stands for: a new piece as requested, a new pose and the moved mark, or a removal, each iff allowed |
| `Construction.BuildAnswers` | service/src/transport_loop.c:627-641 | the builder is answered with the new id or the reason there is none; an id is used up iff the build was allowed |
| `Construction.RunOnPieces` | service/src/authority_core.c:85-137 | over every run the session's objects are what the work of the run made of them |
| `Construction.LastMoveStands` | service/src/authority_core.c:115-125 | after any run an object stands where its last move put it |
| `Construction.WorkIsShown` | plugin/src/proxy_runtime.c:139-170 | a connected client that mirrors the session shows a moved piece in the requested pose, a new one as requested if it had room, and a scrapped one not at all |
| `QueueBound.DropAllCosts` | service/src/transport_loop.c:458-472 | announcing timeouts to a shrinking audience costs a difference of triangle numbers |
| `QueueBound.HandleCosts` | service/src/transport_loop.c:553-680 | no handler but HELLO asks for more than three messages per connected player |
| `QueueBound.TurnFitsQueue` | service/src/transport_loop.c:28-36 | a turn whose envelope is not a HELLO asks for at most 49 messages, so all of them are sent |
| `Service.QueueNeverOverflows` | service/src/transport_loop.c:450-491 | the same in every reachable state |
| `TransportLoop.Loop.SendSingle` | service/src/transport_loop.c:28-36 | a message is queued iff fewer than 64 were asked for; packets are numbered without gaps even when one is dropped |
| `TransportLoop.Loop.TakeSeat` | service/src/transport_loop.c:525-537 | joins or reconnects as specified, or changes nothing |
| `TransportLoop.Loop.SendExistingState` | service/src/transport_loop.c:284-334 | the replay of players, actors and objects in order |
| `TransportLoop.Loop.OnHello` | service/src/transport_loop.c:513-551 | the HELLO handler computes the specified session and messages |
| `TransportLoop.Loop.OnPlayerUpdate` | service/src/transport_loop.c:578-595 | the relay handler computes the specified session and messages |
| `TransportLoop.Loop.OnFire` | service/src/transport_loop.c:607-626 | the fire handler computes the specified session and messages |
| `TransportLoop.Loop.OnBuild` | service/src/transport_loop.c:627-641 | the build handler computes the specified session and messages |
| `TransportLoop.Loop.OnMove` | service/src/transport_loop.c:642-651 | the move handler computes the specified session and messages |
| `TransportLoop.Loop.OnScrap` | service/src/transport_loop.c:652-661 | the scrap handler computes the specified session and messages |
| `TransportLoop.Loop.HandleEnvelope` | service/src/transport_loop.c:493-680 | the dispatcher computes the specified session and messages for every request, and an accepted selection waits for the host |
| `TransportLoop.Loop.TryPopSelection` | service/src/transport_loop.c:383-391 | hands out the latest accepted selection once |
| `TransportLoop.Loop.OnTick` | service/src/transport_loop.c:450-491 | timeouts, marking and despawns compute the specified tick |
| `TransportLoop.Loop.ServeEnvelope` | service/src/service_main.c:164-195 | one turn in place is one step of the run, transmits the first 64 messages asked for and numbers all of them |
| `Proxy.Runtime.ApplyActorState` | plugin/src/protocol_apply.c:26-36 | a state for an unknown actor spawns it first; it succeeds iff the table has a slot for it |
| `Proxy.Runtime.ApplyPacket` | plugin/src/protocol_apply.c:50-156 | every message changes the actor and object tables, and succeeds, as specified |
| `Mirror.ApplyKeepsAgreement` | plugin/src/proxy_runtime.c:82-215 | applying any honest packet keeps agreement up to the ids it leaves in doubt |
| `Delivery.TickKeepsMirror` | service/src/transport_loop.c:474-490 | a tick that buries an actor keeps every connected client's mirror |
| `MirrorRequests.HitKeepsMirror` | service/src/transport_loop.c:618-624 | damage, state and death packets bring any client in line with the wounded actor |
| `MirrorRequests.BuildKeepsMirror` | service/src/transport_loop.c:627-641 | a build keeps every connected client's mirror |
| `MirrorRequests.MoveKeepsMirror` | service/src/transport_loop.c:642-651 | a move keeps it |
| `MirrorRequests.ScrapKeepsMirror` | service/src/transport_loop.c:652-661 | a scrap keeps it |
| `MirrorTurns.RequestTurnKeepsMirror` | service/src/service_main.c:164-195 | a whole turn without HELLO keeps the mirror of every client connected after it |
| `MirrorJoin.OwnHelloKeepsMirror` | service/src/transport_loop.c:284-334 | a HELLO whose replay is not split keeps the sender's mirror, however much of the replay is dropped |
| `MirrorJoin.SplitSpoilsMirror` | service/src/transport_loop.c:298-316 | a split replay leaves a fresh client with an actor that does not match |
| `MirrorJoin.JoinMirrorsIffUnsplit` | service/src/transport_loop.c:284-334 | a fresh client mirrors the session after its HELLO iff the replay is not split |
| `Service.SplitIsReachable` | service/src/transport_loop.c:298-316 | with thirty hostiles in range the very first HELLO is accepted, split, and leaves a client that does not mirror the session |
| `MirrorJoin.MirrorSimulation` | plugin/src/protocol_apply.c:50-156 | over every run, whatever an attached client holds exists in the session with equal position, rotation, health, flags and target, or form, position, rotation and flags |
| `Service.ClientsMirror` | service/src/service_main.c:164-195 | the same for runs from boot and clients that join at any time |
| `SmallWorld.FewActorsNeverSplit` | service/src/transport_loop.c:284-316 | with at most 26 actors in use no replay is split, whoever joins |
| `SmallWorld.SmallWorldsMirror` | service/src/service_main.c:164-195 | from boot with at most 26 hostiles, every client mirrors the session for as long as it is connected, with no condition on the queue |
| `SmallWorld.DefaultIsSmall` | service/src/service_main.c:126-133 | the service's own configuration is such a world |
| `Holding.TurnIsHarmless` | service/src/transport_loop.c:450-491 | every despawn a turn sends names something the session no longer has |
| `Holding.RunKeepsHeld` | plugin/src/proxy_runtime.c:82-170 | over every run a client never loses what the session still has; what is gone stays gone |
| `Coverage.JoinCoversIffFits` | service/src/transport_loop.c:284-334 | a fresh client holds every actor and object in range after its HELLO iff the last spawn of the replay is within the queue |
| `Coverage.OverflowIsReachable` | service/src/transport_loop.c:298-316 | with 31 hostiles in range the very first HELLO is accepted and leaves one of them out |
| `Coverage.BuildIsHeld` | service/src/transport_loop.c:627-641 | an object built while a connected client has a free slot ends up in its table |
| `Coverage.BuiltStaysHeld` | plugin/src/proxy_runtime.c:139-170 | and stays there for as long as the session has it |
| `Coverage.MirrorBothWays` | plugin/src/protocol_apply.c:50-156 | over every run an attached client holds only what the session has, in the same state, and all that was in range when it joined and still exists |
| `Identity.ApplyOnActor` | plugin/src/proxy_runtime.c:82-137 | a packet does to every actor record exactly what it says of that actor |
| `Identity.ApplyOnObject` | plugin/src/proxy_runtime.c:139-170 | an update replaces the fields it names and no other |
| `Identity.SpawnStands` | plugin/src/proxy_runtime.c:82-97 | form, kind and flags of a spawn stand until the actor's next spawn or despawn |
| `Identity.DamageStands` | plugin/src/proxy_runtime.c:171-215 | who hurt an actor last, and how much, stands until it is hurt again |
| `Identity.ClientKnowsActors` | plugin/src/protocol_apply.c:50-156 | over every run an attached client knows form, kind and flags of each actor it holds as they are, or not at all, and holds none marked as dead |
| `Identity.SuccessMeans` | plugin/src/protocol_apply.c:50-156 | a packet that brings something succeeds iff the client then holds it; one that takes or changes something iff it held it |
| `Movement.EmittedIsNumbered` | plugin/src/movement_sync_bridge.c:72-79 | emitted sequences are 1, 2, 3, ... with strictly increasing ticks |
| `Movement.EmittedIsFaithful` | plugin/src/movement_sync_bridge.c:63-79 | a message carries the state captured in its tick field by field; only the velocity may be left out |
| `Movement.GapsAreBounded` | plugin/src/movement_sync_bridge.c:45-61 | consecutive emissions are at least min(throttle, resend) and at most throttle + resend - 1 ticks apart |
| `Movement.SilenceIsBounded` | plugin/src/movement_sync_bridge.c:45-61 | while captures continue, an emission is never overdue |
| `Movement.LastSentIsClose` | plugin/src/movement_sync_bridge.c:45-61 | after a throttle period without emission the last message sent is within both tolerances of the current capture and equal in stance, animation and equipment |
| `Movement.SentIff` | plugin/src/movement_sync_bridge.c:45-61 | said of captures and messages alone: the first capture is sent; one the last message does not tell of is sent once the throttle has passed; one it does tell of is sent as the resend-th of its kind |
| `Movement.Bridge.BuildIfChanged` | plugin/src/movement_sync_bridge.c:37-80 | the bridge's globals follow the specified emitter |
| `Convergence.ServiceConverges` | service/src/player_state_relay_policy.c:9-32 | however messages are lost, repeated or reordered, a fresh slot stores the newest delivered; accepted counts the strict new maxima, the rest are stale, none is regressive |
| `Convergence.AcceptedAreMaxima` | service/src/player_state_relay_policy.c:12-31 | the messages the filter accepts are exactly the strict new maxima, in order |
| `Relay.VerdictCounts` | service/src/player_state_relay_policy.c:9-32 | stale, regressive or accepted: exactly one counter moves, and only an accepted message moves the marks |
| `Convergence.DeliveryToUsedSlot` | service/src/player_state_relay_policy.c:9-32 | over any delivery to a slot with any counters: it ends with the newest message if the filter would take that one, else it stores and relays nothing of it |
| `Convergence.RestartIsStarved` | service/src/player_state_relay_policy.c:12-26 | a restarted emission is heard iff the newest of its delivered messages has caught up with the counters left behind; until then the old state stays |
| `Convergence.ClientConverges` | plugin/src/remote_proxy_manager.c:38-49 | the record is the newest of whatever dated messages reach a client |
| `Convergence.ReplicationConverges` | service/src/transport_loop.c:578-595 | the client gets any selection of what the filter accepted: it never gets ahead of the service and agrees with it once the newest relayed state arrives |
| `Convergence.SeatKeepsRelay` | service/src/session_manager.c:48-59 | a reconnect keeps counters and stored state, a join starts afresh |
| `SessionRelay.TurnOnSlot` | service/src/transport_loop.c:553-606 | a turn does to a slot's relay exactly what its envelope means to that slot, whatever else happens |
| `SessionRelay.OccupancyFoldsUpdates` | service/src/transport_loop.c:578-595 | over an occupancy with arbitrary other traffic, timeouts and reconnects, only the slot's own updates count |
| `SessionRelay.SessionConverges` | service/src/player_state_relay_policy.c:9-32 | in the server loop, the slot ends with the newest emitted message delivered, but for equipment an input state overwrote |
| `SessionRelay.ReconnectStarves` | service/src/session_manager.c:48-59 | after a reconnect with a new emission, over the whole occupancy, the service takes up its state iff its newest delivered message has caught up |
| `Replication.RestartIsReachable` | service/src/transport_loop.c:525-595 | four turns from boot lead to a slot that ignores a connected player |
| `StateNews.TurnTruthful` | service/src/transport_loop.c:161-168 | whatever a turn tells about players shows what their slots hold when the turn is over |
| `StateNews.AcceptedIsTold` | service/src/transport_loop.c:587-594 | a state the filter takes is sent to every client still connected |
| `Replication.ToldFollowsSlot` | service/src/transport_loop.c:578-606 | over any run, what a client is told about a player is dated by its emission, never ahead of the slot, and last what the slot now holds |
| `Replication.EndToEnd` | plugin/src/remote_proxy_manager.c:17-86 | emitter, lossy network, any run of the loop, lossy network, any run of the stage with departures: the player is on stage iff something of it arrived since it last left; the stage never gets ahead; its record is the service's iff a message with the service's sequence arrived since then |
| `Equipment.StateShowsIff` | plugin/src/remote_proxy_manager.c:38-80 | after a state the client shows its equipment iff the stage took the state or showed that equipment before; a state not taken changes nothing |
| `Equipment.InputIsToldIffNamed` | service/src/transport_loop.c:596-606 | an input state is sent to every client that stays connected iff the player has sent a state before |
| `Equipment.InputNotes` | service/src/authority_core.c:10-19 | tick, and equipment in state and profile, are noted and nothing else changes |
| `Equipment.EquipmentReachesIff` | service/src/transport_loop.c:596-606 | the service stores the new equipment; a client that handles all it is told shows it iff it did already, or the player has sent a state and the stage takes that state again |
| `Equipment.EquipmentIsLost` | plugin/src/remote_proxy_manager.c:46-49 | over every run: once a message with the service's sequence has arrived, what is told of a later equipment change has no effect on the stage |
| `TwoPlayers.StateIsTold` | service/src/transport_loop.c:578-595 | with two players, an accepted state of the first is stored and is all the second is told |
| `TwoPlayers.ChangedEquipmentIsLost` | plugin/src/remote_proxy_manager.c:46-49 | four turns from boot end with the service storing one equipment and the client showing another |
| `TwoPlayers.EarlyEquipmentIsUntold` | plugin/src/remote_proxy_manager.c:22-22 | three turns from boot end with equipment stored and nobody told |
| `TwoPlayers.DepartedReturns` | plugin/src/remote_proxy_manager.c:83-86 | five turns from boot, with the departure sent, and a late copy end with the departed player on stage at its older state |
| `Replication.ReachableIsNamed` | service/src/service_main.c:164-195 | in every reachable state stored states name their own slot |
| `StageRelay.NextOnRecord` | plugin/src/remote_proxy_manager.c:17-86 | any event but its own departure does to a player's record exactly what it means to it |
| `StageRelay.RecordIsSinceLeft` | plugin/src/remote_proxy_manager.c:17-86 | over every run with departures, a player with room is on stage iff a state of it arrived since it last left, and its record is what those states leave behind |
| `StageRelay.StageConverges` | plugin/src/remote_proxy_manager.c:38-80 | on the client, among arbitrary events, departures and states sent again with other equipment, the record is the newest message delivered since the player last left |
| `StageRoom.ServiceFindsRoom` | plugin/src/fo4_scene_proxy_backend_stub.c:17-26 | seven player ids never fill eight scene slots: a state from the service finds room after any run |
| `StageRoom.OldStateReturns` | plugin/src/remote_proxy_manager.c:83-86 | two states, a departure and a copy of the first leave the player on stage at the first, behind what was seen |
| `StageRoom.LocalStaysOut` | plugin/src/remote_proxy_manager.c:22-23 | over every run neither the local player nor player 0 is on stage |
| `Landing.StateLands` | plugin/src/remote_proxy_manager.c:51-80 | after any run, a state that is not stale leaves record, scene and driver of its player as the message, the policy and the interpolation say, and nothing else changed |
| `Landing.StaleIff` | plugin/src/remote_proxy_manager.c:38-49 | a message is counted as stale iff its player has shown a newer state, or the same one from that tick or later, and then changes nothing |
| `Landing.FarStateShowsAtOnce` | plugin/src/remote_proxy_update_policy.c:35-38 | beyond the teleport distance record, scene target, presented pose and driver are the message's at once, and nothing is pending |
| `Landing.FirstStateLands` | plugin/src/remote_proxy_manager.c:25-37 | a player's first state, if there is room, shows it just where the message says in all three tables |
| `StageAgreement.SpawnKeepsStage` | plugin/src/fo4_scene_proxy_backend_stub.c:93-128 | an accepted spawn adds the player to all three tables or changes nothing |
| `StageAgreement.StateKeepsAgreementIff` | plugin/src/fo4_proxy_actor_spawn_contract.c:24-88 | a state message keeps the three tables in agreement iff it provokes no refused spawn |
| `StageAgreement.RefusalIsReachable` | plugin/src/fo4_proxy_actor_spawn_contract.c:24-74 | a contract that wants a base form and has none makes the first message break the agreement |
| `StageAgreement.FitsIffRefusesNobody` | plugin/src/fo4_proxy_actor_spawn_contract.c:37-60 | the spawn contract fits iff it refuses no remote player |
| `StageAgreement.DespawnKeepsStage` | plugin/src/fo4_scene_proxy_backend_stub.c:166-184 | a removal succeeds iff the player is live, and keeps agreement |
| `StageAgreement.StepKeepsStage` | plugin/src/fo4_scene_proxy_backend_stub.c:219-236 | a step advances exactly the animating slots and keeps agreement |
| `StageAgreement.TablesAgree` | plugin/src/remote_proxy_manager.c:17-86 | over every run the same ids are live, shown and driven; scene and driver agree on handle and pose; handles are distinct; pending iff presented differs from target |
| `StageManager.Manager.OnState` | plugin/src/remote_proxy_manager.c:17-81 | the in-place manager, scene and driver compute the specified tables and the count of stale messages |
| `StageManager.Manager.UpdatePlayer` | plugin/src/fo4_scene_proxy_backend_stub.c:130-164 | scene_update computes the specified tables |
| `StageManager.Manager.OnLeft` | plugin/src/remote_proxy_manager.c:83-86 | removal computes the specified tables |
| `StageManager.Manager.OnStep` | plugin/src/fo4_scene_proxy_backend_stub.c:219-236 | the step loop computes the specified tables |
| `Smoothing.PursuitIsGeometric` | plugin/src/remote_proxy_update_policy.c:27-48 | n updates toward a fixed target in range leave exactly (1-alpha)^n per component, without overshoot or teleport |
| `Smoothing.StepsAreGeometric` | plugin/src/fo4_scene_proxy_backend_stub.c:219-236 | n steps leave exactly (1-alpha)^n of the way per component |
| `SmoothStage.StageStepsAreGeometric` | plugin/src/fo4_scene_proxy_backend_stub.c:203-236 | the same for n step events after any run of the manager, as shown by the driver |
| `SmoothStage.StagePursuitIsGeometric` | plugin/src/remote_proxy_manager.c:51-80 | the same for n newer messages that insist on a pose, after any run of the manager |
| `SmoothStage.RunKeepsClamped` | plugin/src/remote_proxy_update_policy.c:18-23 | the setters clamp, so every alpha the manager ever uses lies between zero and one |
| `SmoothStage.PlayerSteps` | plugin/src/fo4_scene_proxy_backend_stub.c:219-236 | steps move the presented pose of every player on stage at the exact rate, unless interpolation is off or the last message was a teleport |
| `SmoothStage.LastInterpolationStands` | plugin/src/fo4_scene_proxy_backend_stub.c:203-213 | the interpolation in force is the one last set, clamped, or the default |
| `SmoothStage.LastPolicyStands` | plugin/src/remote_proxy_update_policy.c:10-23 | the smoothing policy in force is the one last set, clamped, or the default |
| `SampleQueue.LastEightAppend` | plugin/src/local_player_observer_provider.c:40-52 | one more sample pushes out the oldest of eight |
| `SampleQueue.LiveProvider.Submit` | plugin/src/local_player_observer_provider.c:111-137 | a refused sample changes nothing; the ring holds the last eight accepted samples in order; submitted = queued + dropped; the watermark is min(n, 8) |
| `SampleQueue.LiveProvider.Capture` | plugin/src/local_player_observer_provider.c:160-164 | capture returns the newest accepted sample |
| `Quest.QuestNeverRegresses` | service/src/quest_mirror_policy.c:34-42 | once a non-zero quest is mirrored its id never changes and its stage never falls |
| `Quest.AcceptedUpdateKeepsSettled` | service/src/quest_mirror_policy.c:43-60 | with distinct objective ids no objective leaves Completed or Failed |
| `Quest.SettledIsSafeIffUnshadowed` | service/src/quest_mirror_policy.c:48-59 | no accepted update can unsettle an objective iff none is shadowed by an earlier one of its id |
| `Quest.DuplicateIdsUnsettle` | service/src/quest_mirror_policy.c:50-58 | two updates from the unloaded state that unsettle a shadowed objective |
| `Quest.OmissionForgets` | service/src/host_event_mirror.c:79-89 | three updates from the unloaded state that reopen an omitted objective |
| `Quest.SettledIsSafeIffCarried` | service/src/host_event_mirror.c:78-89 | after an accepted update, every further one respects a settled objective iff the first carried it |
| `Quest.CarriedStaysSettled` | service/src/quest_mirror_policy.c:43-60 | an objective that every accepted update carries never leaves Completed or Failed over the whole run |
| `Quest.ValidateUpdate` | service/src/quest_mirror_policy.c:14-64 | the nested loops compute the specified reason code |
| `Quest.QuestMirror.OnUpdate` | service/src/host_event_mirror.c:67-91 | the record is replaced iff the update is accepted |
| `QuestHistory.AcceptedIff` | service/src/quest_mirror_policy.c:14-64 | an update is accepted iff the mirror is on, it has at most 16 objectives, no other quest is stored, the stage does not go back and every objective is valid and follows from the first stored one with its id |
| `QuestHistory.ReasonIs` | service/src/quest_mirror_policy.c:14-64 | a refusal names the first thing wrong, and of the objectives the first one |
| `QuestHistory.LastWelcomeStands` | service/src/host_event_mirror.c:67-91 | over every run the record is the last update accepted, with texts cut to 255 bytes |
| `Dialogue.SelectAppliesIffValid` | service/src/dialogue_progression_policy.c:6-52 | a selection is applied iff it validates, so the missing-text rejection is unreachable; a refused one changes nothing |
| `Dialogue.AppliedSelectionEndsDialogue` | service/src/host_event_mirror.c:97-109 | an applied selection leaves the dialogue inactive without choices, and a second one is refused even after another line |
| `Dialogue.SelectionsNeverExceedLists` | service/src/host_event_mirror.c:6-65 | over every interleaving, applied selections never exceed published non-empty lists |
| `Dialogue.Mirror.ValidateSelection` | service/src/dialogue_selection_policy.c:3-24 | the search computes the specified verdict |
| `Dialogue.Mirror.OnGuestSelect` | service/src/host_event_mirror.c:97-109 | the in-place selection computes the specified dialogue |
| `Conversation.SelectedIffOffered` | service/src/dialogue_selection_policy.c:3-24 | a selection is applied iff the dialogue is active, current and the first choice with the id is enabled; the verdict names the first thing wrong |
| `Conversation.LastNamed` | service/src/host_event_mirror.c:6-50 | the current dialogue is the one last opened, spoken in or given choices |
| `Conversation.ActiveIff` | service/src/host_event_mirror.c:6-65 | the dialogue is active iff it was opened or a line spoken and nothing ended it since |
| `Conversation.OfferStands` | service/src/host_event_mirror.c:34-50 | a list of choices, cut to 12 of 255 bytes, stays on offer until the next list, opening or end |
| `Conversation.NoListNoOffer` | service/src/host_event_mirror.c:52-65 | without a list since the last opening or end nothing is on offer |
| `Conversation.LineStands` | service/src/host_event_mirror.c:21-32 | a line and its speaker stand until the next line, opening or end |
| `Conversation.OpeningStands` | service/src/host_event_mirror.c:6-19 | an opening names the partner, and the speaker until the next line |
| `Conversation.EndStands` | service/src/host_event_mirror.c:97-109 | how the dialogue ended is remembered until the next opening or end |
| `Wire.FieldRoundTrip` | shared/protocol/packet_reader.c:18-48 | every field type reads back what was written, whatever follows |
| `Wire.FieldSizes` | shared/protocol/packet_writer.c:26-40 | how many bytes each field takes and which numbers fit in it |
| `Wire.ParseIffFits` | shared/protocol/packet_reader.c:39-48 | what was written is read iff every text fits its destination |
| `Codec.CodecLaw` | shared/protocol/packet_codec.c:9-345 | for every kind of message its encoder can write, decoding returns it (the build result's flag as 0 or 1) and consumes exactly its bytes if it is within the decoder's limits, and is refused if not; no strict prefix decodes |
| `Codec.CodecsMatch` | shared/protocol/packet_codec.c:40-345 | the encoder and the decoder of every message agree on its layout |
| `Packets.PacketWriter.WriteBytes` | shared/protocol/packet_writer.c:4-24 | all of the bytes or none, and none ever after an overflow |
| `Packets.PacketWriter.WriteField` | shared/protocol/packet_writer.c:26-40 | a typed write appends the field's bytes iff there is room; after an overflow nothing in the buffer changes |
| `Packets.PacketWriter.EncodeBody` | shared/protocol/packet_codec.c:9-345 | the encoders append exactly the encoding iff every text has one and it fits; they know no limits of the decoder |
| `PacketReading.PacketReader.ReadBytes` | shared/protocol/packet_reader.c:4-23 | all of the bytes or none, and none ever after an overflow |
| `PacketReading.PacketReader.ReadField` | shared/protocol/packet_reader.c:25-48 | a typed read accepts exactly what the field grammar accepts; a text too long for its buffer is an overflow |
| `PacketReading.PacketReader.DecodeBody` | shared/protocol/packet_codec.c:9-345 | the decoders accept exactly what the message grammar accepts and consume the same bytes; too large a count is refused without overflow |
| `Packets.FramePacket` | service/src/transport_loop.c:62-89 | the framed packet carries the payload length, patched in after the payload is written, iff it has an encoding and fits 1400 bytes |
| `Packets.FramedPacketDecodes` | service/src/transport_loop.c:77-88 | a framed packet reads back as its header, a message header with the payload's length, and the message |
| `Packets.LoopMessagesFit` | service/src/transport_loop.c:62-89 | no message of the server loop is too long for a packet, so only a full queue drops one |
| `Decoder.OperandFollowsManual` | plugin/src/commonlibf4_player_hook_patch_realization.c:138-178 | the operand parser accepts iff every byte of the ModR/M and SIB forms is there, and returns that many |
| `Decoder.DecodeIsLocal` | plugin/src/commonlibf4_player_hook_patch_realization.c:180-291 | decoding depends on the bytes of the instruction only and survives any extension |
| `Decoder.DecodeIffWhole` | plugin/src/commonlibf4_player_hook_patch_realization.c:180-291 | a buffer cut short decodes to the instruction iff it holds all of its bytes, and else to nothing |
| `Decoder.DecodeInstruction` | plugin/src/commonlibf4_player_hook_patch_realization.c:180-291 | the prefix loop, the opcode groups and the REX scan compute the specified length and safety |
| `Opcodes.OneByteOpcodes` | plugin/src/commonlibf4_player_hook_patch_realization.c:198-291 | length and verdict for every class of the one-byte opcode map, and refusal of everything else |
| `Opcodes.TwoByteOpcodes` | plugin/src/commonlibf4_player_hook_patch_realization.c:228-248 | the same for the two-byte opcodes |
| `Opcodes.SafeIffMovable` | plugin/src/commonlibf4_player_hook_patch_realization.c:180-291 | an instruction is called safe iff the address it refers to does not depend on where it sits |
| `PatchPlan.CoverIsLeastBoundary` | plugin/src/commonlibf4_player_hook_patch_realization.c:293-320 | the planner's answer is the only run of at most eight instructions that ends at the least boundary at or above the minimum, and it answers iff there is one |
| `PatchPlan.CoverFailsIffStuck` | plugin/src/commonlibf4_player_hook_patch_realization.c:300-317 | it gives up iff the budget is spent or an instruction does not decode below the minimum |
| `PatchPlan.CoverIsLocal` | plugin/src/commonlibf4_player_hook_patch_realization.c:293-320 | bytes beyond the boundary do not matter |
| `PatchPlan.PlanAddsUp` | plugin/src/commonlibf4_player_hook_patch_realization.c:307-319 | an accepted plan stays within the captured bytes and the recorded lengths add up to it |
| `PatchPlan.PlanBoundary` | plugin/src/commonlibf4_player_hook_patch_realization.c:293-320 | the planner loop reports the specified boundary, lengths and safety, and what it read before giving up |
| `Opcodes.AcceptedIffMovable` | plugin/src/commonlibf4_player_hook_patch_realization.c:293-320 | a site is accepted iff at most eight instructions reach the first boundary at or behind twelve bytes within the sixteen captured, and every one refers to the same thing wherever it sits |
| `Patching.StubReads` | plugin/src/commonlibf4_player_hook_patch_realization.c:398-408 | the stub jumps to its 64-bit address and decodes as ten and two bytes |
| `Patching.PatchResynchronises` | plugin/src/commonlibf4_player_hook_patch_realization.c:539-542 | the patched site decodes as the stub and one-byte padding ending exactly at the boundary, and from there exactly as the original did |
| `Patching.TrampolineReads` | plugin/src/commonlibf4_player_hook_patch_realization.c:502-509 | the trampoline decodes as the original instructions and a stub to target + overwrite_len, and with the patched site determines the original bytes |
| `Patching.AcceptedPatchIsSound` | plugin/src/commonlibf4_player_hook_patch_realization.c:483-542 | all of this for every sixteen captured bytes the planner accepts and every address |
| `Opcodes.MovedInstructionsKeepMeaning` | plugin/src/commonlibf4_player_hook_patch_realization.c:502-509 | every moved instruction reads the same in the trampoline, wherever that is, and refers to what it referred to at the site |
| `Patching.RepatchNests` | plugin/src/commonlibf4_player_hook_patch_realization.c:483-542 | a patched site is accepted again as its stub alone, and the second trampoline enters the first gateway |
| `Realization.EmitStub` | plugin/src/commonlibf4_player_hook_patch_realization.c:398-408 | writes the stub in place and nothing else |
| `Realization.BuildGateway` | plugin/src/commonlibf4_player_hook_patch_realization.c:412-442 | builds the marker or passthrough gateway |
| `Realization.PatchSite` | plugin/src/commonlibf4_player_hook_patch_realization.c:539-542 | overwrites the site with stub and padding up to the boundary and nothing else |
| `Realization.CircleCloses` | plugin/src/commonlibf4_player_hook_patch_realization.c:502-542 | site, gateway, trampoline and the byte behind the boundary form a chain of jumps through relocatable instructions |
| `Realization.RealisedIff` | plugin/src/commonlibf4_player_hook_patch_realization.c:445-540 | a patch is realised iff nothing is missing, unsupported, refused or unwritable, and the first obstacle is named |
| `Gateways.GatewayIsTransparent` | plugin/src/commonlibf4_player_hook_patch_realization.c:412-442 | executed, the marker gateway restores registers, flags and stack, counts one hit and reaches the stub to the trampoline |
| `Realization.Realizer.Attempt` | plugin/src/commonlibf4_player_hook_patch_realization.c:445-560 | either the whole patch is realised and recorded or the site is untouched and the first obstacle reported, with the platform code of the last two; the write-failed branch is unreachable |

## Left out

- Sockets, endpoint text and the endpoint binding table, sleep, environment and file reading, JSON profiles and
  whitelists, replay log and trace files: input and output. The profile a HELLO loads, the whitelist and the
  line-of-sight test are given data; the whitelist is fixed for a run.
- TransportLoop.Loop.HandleEnvelope: starts from a decoded request; a packet that does not decode, has a bad header or an
  unsupported type is the request `Unusable`, which is refused. The codec is proved on its own.
- Proxy.Runtime.ApplyPacket: covers the actor and object tables; for a player state the answer is the remote-player
  manager's. The client's profile, dialogue, quest and last-combat tables are copies of the last message, and the death
  or despawn of a partner closes the client's dialogue; these tables are not modelled.
- SampleQueue.LiveProvider.Submit: takes the adapter's verdict as given and does not keep the adapter's counters, which a
  probe shares.
- Realization.Realizer.Attempt: allocation, protection and flushing are answers given to it, written memory is what was
  written, and blocks freed on a failed attempt and the gateway's hit counter are not modelled.
- GUIDs are the bytes before the first zero byte, as the C functions that compare and copy them see them: a GUID whose
  first byte on the wire is zero is the empty GUID of the session model. The codec carries zero bytes like any other.
- Floating point: positions, angles and alphas are reals, so rounding and NaN are not modelled; the square root is any
  function that is positive on positive numbers, and exact where `Ballistics` says so. Health moves in quarters and is
  exact.
- Counters are unbounded; `Counters.CountersDoNotWrap` gives the runs over which the service's stay within 32 bits, and
  the emitter's sequence and tick never exceed the number of captures.
- Flag words are sets of flags; display names, the ragdoll seed, despawn reasons, message flags and the reserved
  bytes of session messages are not kept (the codec does carry every field).
- Actors are spawned at boot only, as the service does; `ac_spawn_hostile_actor` has no caller inside the loop.
- The adapters that find choice and objective texts by address arithmetic (`service/src/transport_loop.c:58`,
  `service/src/transport_loop.c:60`): nothing is claimed about texts that pass through them.
- The live-candidate branch of the scene backend, statistics counters of scene, driver and contract, and the driver
  replacement hook.
- Agreement of decoded lengths with the processor under the 66H and 67H prefixes, for which the code has one immediate
  width: the properties are about the code's own decoder.
- Hook bring-up, arming, readiness and evidence modules, event translation and hook shims: flag tables and field copies.
- `plugin/src/player_hook_probe_harvest.c`: it uses report fields that its header does not have.
