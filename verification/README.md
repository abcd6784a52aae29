# Verified model of the DoIP EdgeNode and the VirtualEcu

DoIP (ISO 13400-2) carries vehicle diagnostics over IP. The EdgeNode is a gateway: testers
connect over TCP, activate routing for their source address and send diagnostic requests,
which the gateway forwards to ECUs over its own TCP legs. The VirtualEcu simulates such an
ECU with UDS services (ISO 14229-1). This Dafny project models the logic of both that is
hardest to get right and proves what it keeps, for every input and every interleaving.

Both programs run on asyncio. Concurrent parts are step systems: the code between two
suspension points is one atomic step, and timers, cancellation, peers and the order of
tasks are nondeterministic. A theorem about `Runs(Initial(..), steps, w)` is about every
reachable state. Objects whose methods change their fields are classes, each method of which
is tied to the transition function that the theorems are about; loops are methods with
invariants. What each operation answers or does is stated once more in the terms of the
wire or of the tables, with the literal payload types, lengths and codes: these are the
lemmas named `..Exactly` and those of the modules named `..Outcomes`.

| files | what they model |
|---|---|
| Registry, Activation, ActivationInvariant, ActivationSteps, ActivationProbes, ActivationTheorems, ActivationOutcomes, ActivationProgress, ActivationTermination, Sums | EdgeNode routing activation: address locks, capacity, alive probes, eviction |
| EcuReader, Exchange, ExchangeOutcomes, ExchangeTheorems | the frame reader of an ECU leg, and one timed EdgeNode-to-ECU exchange |
| Legs, LegsInvariant, LegsSteps, LegsTheorems, LegsOutcomes, LegsProgress | connecting, exchanging, retiring and tearing down ECU legs as racing tasks |
| EcuConnection | the receive queue with its terminal marker |
| Framing | the TCP frame reader of the EdgeNode |
| PumpWorker, PumpTheorems, PumpLegs | the VirtualEcu's reader and worker, joined by a bounded queue, and its joint runs with the gateway's legs |
| ResponsePending, EndToEnd | the timed ResponsePending loop, and its composition with the exchange |
| Security, SessionTable | diagnostic session, security level, S3 timer, the shared state table |
| DidConfig, DidStore, DidTheorems | loading, reading and writing data identifiers |
| EcuRuns, EcuRunTheorems | whole runs of the VirtualEcu's core: sockets, shared states, timers and identifiers together |
| Discovery | both UDP responders and a network of them |

`dafny verify dfyconfig.toml` checks everything.

Results that differ from what a comment or a document in the repository says:

- `virtual_ecu/virtecu/core.py:149-158` says the state table keeps only non-default states
  after their socket is gone. A state unlocked in the default session also stays, and no
  timer watches it (`UnlockedDefaultStateStays`, exact condition in `KeptWithoutTimer`).
- `virtual_ecu/virtecu/core.py:216-218` says a dropped state is what a fresh one would be.
  The attempt counter is not looked at, so a tester that reconnects after a wrong key starts
  at 0 again (`ReconnectForgetsWrongKey`). The same happens to a wrong key given after the S3
  timer has dropped the entry of a live socket, which keeps the object
  (`OrphanKeyNotCounted`). Exactly when the counter counts the tester's wrong keys:
  `TidyIsFreshExactly` for one state, `CounterExactly` and `HarmsExactly` for whole runs.
- `virtual_ecu/virtecu/config.py:214-219` says a handler that outlives the ResponsePending
  cap is left running detached. The code cancels it; the model follows the code.
- Security level 64 can never be reached: its seed sub-function is 0x7F and the key
  sub-function 0x80 is masked to 0x00 (`StateIsLogged` bounds the level by 63).
- With `reset_drops_connection` an ECUReset forgets the table entry but does not relock the
  state object, on which a request queued behind the reset is still served
  (`VanishingResetKeepsLevel`). Exactly when a granted reset relocks: `ResetLocksExactly`.
- The reply chains of `Discovery` end because `max_payload_bytes` is at least 1. With 0 two
  EdgeNodes exchange one NACK as often as one likes (`EndlessNacks`), and deliveries are
  bounded exactly in networks without such a node (`StormFreeExactly`).

## Model

| member | source | states |
|---|---|---|
| `ActivationTheorems.ExclusiveOwnership` | doip_edgenode/session.py:402-484 | In every interleaving of activations, probes, evictions, closes and cancellations, a session is activated for an address and not closing exactly when it is that address's registry entry, so each address has at most one |
| `ActivationTheorems.CapacitySafety` | doip_edgenode/session.py:460-514 | Registered sessions never exceed `max_connections` although only the full branch takes the shared lock, and admitted sockets never exceed `max_connections + 1`, which fits the status byte |
| `ActivationTheorems.EveryOutcomeJustified` | doip_edgenode/session.py:442-568 | Every eviction hits the owner of that instant after a probe of it by the same contender ended without an alive result; code 0x03 needs the current owner's probe to have ended alive; a probe that waited for an open target ends alive exactly if a reply with the registered address came inside its own window, and otherwise ends dead only because it was refused or not sent; the registry is what the history says |
| `ActivationTheorems.ConflictLoopBound` | doip_edgenode/session.py:442-458 | An activation passes the conflict loop at most twice; the second pass always leaves it and starts no probe |
| `ActivationTheorems.SharedLock` | doip_edgenode/session_registry.py:102-116 | All contenders for an address hold one lock object, its reference count is their number and at most one is past it, under cancellation of holders and waiters |
| `ActivationProgress.NoDeadlock` | doip_edgenode/session.py:440-568 | In every reachable world in which some session contends for an address, a handler or a probe can take a step of its own: nobody needs a new request, a close or a cancellation to go on |
| `ActivationTermination.EverybodyLeaves` | doip_edgenode/session.py:440-568 | From every reachable world, handlers and probes left to themselves cannot go on for ever, and when none has a step to take no session contends for an address any more |
| `ActivationSteps.OneHolder` | doip_edgenode/session_registry.py:102-116 | Two sessions past the lock of the same address are the same session |
| `ActivationOutcomes.AnsweringTesterIsAlive` | doip_edgenode/session.py:541-568 | In every reachable world, once the open target of a waiting probe has answered with its own address the probe can only end alive |
| `ActivationOutcomes.SilentTesterIsDead` | doip_edgenode/session.py:541-568 | A probe that runs out, cannot be written or whose target closes ends dead |
| `ActivationOutcomes.AnswersExactly` | doip_edgenode/session.py:516-539 | A reply answers the waiting probe exactly if it is the two bytes of the active, open session's own address |
| `ActivationOutcomes.ProbesExactly` | doip_edgenode/session.py:541-553 | A probe goes out exactly to an active and open session, and opens its window at that session's address |
| `ActivationOutcomes.OtherOwnerIsAsked` | doip_edgenode/session.py:442-452 | An address somebody else owns starts a probe of that owner and nothing else |
| `ActivationOutcomes.RoomAdmits` | doip_edgenode/session.py:460-484 | A free or own address is taken when there is room: the session owns it afterwards and no other address changes hands |
| `ActivationOutcomes.ChangedOwnerIsLeft` | doip_edgenode/session.py:449-454 | An owner that changed during the probe is neither evicted nor reported; the decision is taken again |
| `ActivationOutcomes.AliveOwnerStays` | doip_edgenode/session.py:455-456 | An owner that was alive stays and the contender gets 0x03, the registry unchanged |
| `ActivationOutcomes.DeadOwnerGoes` | doip_edgenode/session.py:457-458 | An owner that was not alive is closed, its socket and address are free, nobody else loses anything |
| `ActivationOutcomes.EveryOwnerIsAsked` | doip_edgenode/session.py:486-500 | A full registry makes the session probe every registered owner |
| `ActivationOutcomes.UnansweringOwnerGoes` | doip_edgenode/session.py:501-509 | A capacity probe without an answer closes exactly the owner it asked, if that still owns the address |
| `ActivationOutcomes.OtherOwnersStay` | doip_edgenode/session.py:501-509 | Any other result of a capacity probe changes no session and no address |
| `ActivationOutcomes.RecheckDecides` | doip_edgenode/session.py:460-484 | After reclaiming, a registry still full gives 0x01, room admits |
| `ActivationOutcomes.ClosingFrees` | doip_edgenode/session.py:1158-1232 | Closing a session frees its socket, and an address exactly if it was its own |
| `ActivationOutcomes.LeavingUnlocks` | doip_edgenode/session_registry.py:110-116 | Leaving the handler releases the lock and drops exactly one reference, the last one forgets it |
| `ActivationOutcomes.CancelledClaimsNothing` | doip_edgenode/session.py:486-514 | However a run goes on after a cancelled activation, until its next request the session becomes the owner of no address |
| `ActivationTheorems.StepKeeps` | doip_edgenode/session.py:378-568 | Every step keeps ownership, locking, decision, probe and history invariants together |
| `ActivationTheorems.ProbeReturnedKeeps` | doip_edgenode/session.py:449-458 | Acting on a probe result keeps the invariant in all four cases: session closing, owner changed meanwhile, owner alive, owner evicted |
| `ActivationTheorems.AcquireCapacityKeeps` | doip_edgenode/session.py:486-496 | Entering the capacity decision keeps the invariant whether the session is closing, room appeared or a probe round starts |
| `ActivationTheorems.EvictNextKeeps` | doip_edgenode/session.py:501-509 | Looking at one finished capacity probe keeps the invariant: no changed or answering owner is evicted |
| `ActivationSteps.CloseKeeps` | doip_edgenode/session.py:1158-1232 | Closing a session at any moment keeps the invariant: socket and address are freed together, and only its own entry |
| `ActivationSteps.CommitKeeps` | doip_edgenode/session.py:470-475 | Registering an address keeps the invariant, given the checks made since the last suspension |
| `ActivationProbes.EndKeeps` | doip_edgenode/session.py:541-568 | However a probe ends, nothing of it leaks into the next probe of the same session |
| `Registry.SessionRegistry.constructor` | doip_edgenode/session_registry.py:56-63 | An empty registry with a valid limit is bounded |
| `Registry.SessionRegistry.ReserveSocket` | doip_edgenode/session_registry.py:65-73 | Admits a socket exactly when it is known or there is room, keeping the bound |
| `Registry.SessionRegistry.AttachSession` | doip_edgenode/session_registry.py:82-86 | Binds a reserved socket to its session and admits no socket beyond the bound |
| `Registry.SessionRegistry.ReleaseSocket` | doip_edgenode/session_registry.py:88-90 | Frees exactly that socket |
| `Registry.SessionRegistry.RegisterSession` | doip_edgenode/session_registry.py:118-124 | The new table is the old one with this address owned by this session |
| `Registry.SessionRegistry.UnregisterSession` | doip_edgenode/session_registry.py:126-132 | Removes the entry only if it still is this session's |
| `Registry.SessionRegistry.EnterActivation` | doip_edgenode/session_registry.py:102-110 | Takes a reference to the address's lock, creating it for the first contender only |
| `Registry.SessionRegistry.ExitActivation` | doip_edgenode/session_registry.py:110-116 | Drops a reference and forgets the lock with the last one |
| `Registry.SessionRegistry.StatusPayload` | doip_edgenode/session_registry.py:92-100 | The two counts fit their bytes |
| `Registry.SocketLaws` | doip_edgenode/session_registry.py:65-90 | A socket is admitted exactly up to the limit plus one, and a released one makes room |
| `Registry.AddressLaws` | doip_edgenode/session_registry.py:118-132 | The last to register owns the address, only its owner gives it up, other addresses are untouched |
| `Registry.LockLaws` | doip_edgenode/session_registry.py:102-116 | Entering and leaving undo each other and contenders get the same lock |
| `Exchange.ExchangeWithEcu` | doip_edgenode/session.py:747-825 | The loop with its deadline, per-frame waits and flags computes the outcome function `Perform` |
| `ExchangeTheorems.ExchangeOutcome` | doip_edgenode/session.py:757-825 | Relayed frames are the first arrivals in order and each arrived before the deadline whatever pending frames came; at most one ACK; the synthetic 0x06 NACK exactly on timeout, exhausted budget or transport error before any ACK or diagnostic data, which is exactly when the request was not sent before the deadline or the first frame is missing, late or lost; the leg is kept exactly when the last relayed frame is final |
| `ExchangeOutcomes.EndsOnFrame` | doip_edgenode/session.py:757-820 | From the arrivals alone: after interim frames in time, an in-time 0x8003 frame or an answering final response is relayed and keeps the leg; a second ACK or a mismatch under strict matching is withheld; anything else is relayed and retires the leg; no synthetic NACK |
| `ExchangeOutcomes.FailsAfterInterim` | doip_edgenode/session.py:757-786 | If the frame after the interim ones is late or lost they are relayed, the leg is retired, and the 0x06 NACK goes out exactly if there were none |
| `ExchangeOutcomes.InterimRelayed` | doip_edgenode/session.py:787-812 | A first ACK and every pending response in time are relayed and the loop goes on |
| `Exchange.PositiveSidBits` | doip_edgenode/session.py:911-935 | The positive service identifier is the bitwise or with 0x40 |
| `ExchangeTheorems.StrictExchange` | doip_edgenode/session.py:911-935 | Under strict matching every relayed diagnostic frame answers the service identifier that was sent |
| `EcuReader.ReadsShapedFrames` | doip_edgenode/ecu_client.py:232-255 | The reader takes a frame off the stream exactly when a frame with a valid pattern, a known type and a length that type allows is there within the limit, and leaves what follows |
| `EcuReader.EcuHeaderDecides` | doip_edgenode/ecu_client.py:232-255 | Which headers are read and which are invalid, by version, inverse, payload type and length |
| `EcuReader.ReadFromEcu` | doip_edgenode/ecu_client.py:232-255 | The reader on a stream computes `ReadEcuFrame`: result and remaining bytes |
| `Exchange.OnePass` | doip_edgenode/session.py:757-786 | One pass of the loop ends the exchange, waits on or relays a frame as `PassOf` says |
| `Exchange.JudgeFrame` | doip_edgenode/session.py:787-820 | The branches on one frame decide relay, continuation and completion as `OnFrame` says |
| `ExchangeTheorems.RelaysInOrder` | doip_edgenode/session.py:757-820 | From any point of the loop on, what is relayed is the next arrivals, without gaps |
| `ExchangeTheorems.RunShaped` | doip_edgenode/session.py:757-820 | Interim frames first, then at most one other; completion and NACK exactly as the last frame and the progress say |
| `LegsTheorems.ResponseAttribution` | doip_edgenode/session.py:734-909 | If ECUs answer a leg's requests in order and send nothing for a request after its final frame, every frame relayed in an exchange was emitted for that exchange's request, across timeouts, disconnects, cancellations and many targets |
| `LegsOutcomes.CompletionIsAnswered` | doip_edgenode/session.py:786-825 | In every reachable world of an open session, a step that ends an exchange with its leg kept has just relayed a final frame, emitted for that request; nothing else ends one so |
| `LegsOutcomes.FramesExactly` | doip_edgenode/session.py:787-820 | Every frame handled while open, by its type and bytes: relayed or withheld, and the exchange goes on, completes or retires the leg |
| `LegsOutcomes.FailedRelayRetires` | doip_edgenode/session.py:803-825 | A relay that raises retires the leg, and its frame counts as relayed exactly if it got out |
| `LegsOutcomes.ReadyLegAnswers` | doip_edgenode/session.py:734-825 | A request on a ready leg whose ECU answers has a run to completion: the answer is relayed and the leg kept |
| `LegsOutcomes.ConnectsToNewTarget` | doip_edgenode/session.py:953-1033 | A request to a target without a leg has a run in which one is connected, cached and ready |
| `LegsOutcomes.ReusesCachedLeg` | doip_edgenode/session.py:734-745 | A cached leg that is up is used again; one that is lost is retired first |
| `LegsOutcomes.ReplacesLostLeg` | doip_edgenode/session.py:734-745 | After its retirement a new leg to the same target is connected |
| `LegsOutcomes.ConnectedExactly` | doip_edgenode/session.py:993-1029 | A successful connect is cached when open, and closed by its own task and not cached when closing |
| `LegsOutcomes.RetiresExactly` | doip_edgenode/session.py:842-856 | A retirement removes its own leg and read, and no entry of a replacement |
| `LegsOutcomes.CancelledStops` | doip_edgenode/session.py:747-856 | After a cancelled request, until the next one nothing is written or relayed, in every run |
| `LegsOutcomes.ClosedIsSilent` | doip_edgenode/session.py:937-941 | In every run from a closing session on, nothing is relayed and no request is written |
| `LegsTheorems.CachedLegIsClean` | doip_edgenode/session.py:827-909 | A leg still cached between exchanges has nothing buffered, no outstanding read and no frame left to come |
| `LegsTheorems.LegConservation` | doip_edgenode/session.py:984-1269 | No leg is closed twice; when the cleanup has finished, every leg whose setup succeeded was closed exactly once, its close is over and nothing is cached, whichever of retirement, late connect and teardown raced |
| `LegsProgress.TeardownFinishes` | doip_edgenode/session.py:1234-1269 | From every reachable world in which the teardown has started, steps of the teardown and of the tasks it joins cannot go on for ever, and when none is left to take it is done |
| `PumpLegs.VirtualEcuIsLawful` | virtual_ecu/virtecu/session.py:846-1025 | Every joint run of the gateway's legs with VirtualEcus at their far ends is a run of the gateway model: the ECUs answer in order and send nothing after a final frame because the gateway sends on a leg only when the ECU is done with the last request |
| `PumpLegs.JointAttribution` | doip_edgenode/session.py:734-909 | In every joint run each frame relayed in an exchange is one the VirtualEcu sent for the request of that exchange |
| `LegsTheorems.StepKeeps` | doip_edgenode/session.py:734-1269 | Every step of session, connect, retirement, close and cleanup tasks and of the ECUs keeps the invariant |
| `LegsSteps.HandleFrameKeeps` | doip_edgenode/session.py:776-820 | Acting on a frame keeps the invariant: relayed only for its own request, and the leg is kept only if nothing more is to come |
| `LegsSteps.RelayFailsKeeps` | doip_edgenode/session.py:803-825 | A relay that raises or is cancelled retires the leg, even for a final frame and whether or not the frame was sent |
| `LegsSteps.RetireRunKeeps` | doip_edgenode/session.py:842-856 | Retiring a leg never touches the cache entry or the reader of its replacement |
| `LegsSteps.ConnectOkKeeps` | doip_edgenode/session.py:993-1029 | A connect that succeeds while the session closes is closed by its own task, otherwise cached |
| `EcuConnection.TerminalQueue` | doip_edgenode/ecu_client.py:121-138 | Once terminal the queue holds exactly one marker and it is last; in a run without an explicit close or failed setup, delivered plus queued frames are all frames read but header NACKs and alive checks, in order |
| `EcuConnection.EndsExactly` | doip_edgenode/ecu_client.py:121-138 | A reader that ends leaves the queued frames before the marker, a close or failed setup leaves the marker alone, a second end adds none |
| `EcuConnection.TerminalForever` | doip_edgenode/ecu_client.py:121-138 | The terminal cause never changes and the connection never becomes connected again |
| `EcuConnection.NoReceiverStranded` | doip_edgenode/ecu_client.py:373-388 | In every run, while a terminal connection has receivers one is scheduled, and running it lets exactly one go |
| `EcuConnection.EveryReceiverReturns` | doip_edgenode/ecu_client.py:373-388 | In every run, running the scheduled receivers of a terminal connection lets all of them return and leaves the marker in place |
| `EcuConnection.StepKeeps` | doip_edgenode/ecu_client.py:318-407 | Reader, receivers, their cancellation, failed setup, EOF and close all keep the queue invariant |
| `EcuConnection.ECUConnection.SetTerminal` | doip_edgenode/ecu_client.py:121-135 | Marks the end once, after the queued frames, or in place of them on an explicit close |
| `EcuConnection.ECUConnection.OnFrameRead` | doip_edgenode/ecu_client.py:318-359 | Queues every frame except header NACKs and alive checks |
| `EcuConnection.ECUConnection.GetAndReturn` | doip_edgenode/ecu_client.py:373-388 | Takes the first frame, or puts the marker back for the next receiver |
| `Framing.FramingSynchronised` | doip_edgenode/session.py:255-297 | On any list of frames the reader yields exactly what their own headers say: accepted frames in order and one NACK per rejected one up to the first fatal frame, whatever rejected bodies contain |
| `Framing.ReadOfBuilt` | doip_edgenode/session.py:1070-1080 | Reading inverts building for a frame of each type and length the code lists, and leaves the tail |
| `Framing.HeaderDecides` | doip_edgenode/session.py:255-297 | For each header NACK code, exactly which header bytes lead to it, which fixes the precedence |
| `Framing.ReadNext` | doip_edgenode/session.py:255-280 | The reader on a stream computes `ReadFrame`: result, NACKs and remaining bytes |
| `Framing.DiscardPayload` | doip_edgenode/session.py:282-297 | Succeeds exactly when the bytes are there and the last chunk is read before the deadline, then exactly `length` bytes are gone, in chunks of at most 4096 |
| `PumpTheorems.PumpConservation` | virtual_ecu/virtecu/session.py:968-982 | At most eight requests wait, and every hand-over ended as a busy reply, a taken or a waiting request |
| `PumpTheorems.OwnVersionAndAddress` | virtual_ecu/virtecu/session.py:955-1003 | Every frame carries the version and address of its own request, and the worker runs that request's bytes, although the pump reads newer frames meanwhile |
| `PumpTheorems.ResponsesInAckOrder` | virtual_ecu/virtecu/session.py:846-1025 | Each response follows its own ACK, responses leave in ACK order, nothing follows a request's last frame |
| `PumpTheorems.AnswersExactly` | virtual_ecu/virtecu/session.py:846-954 | Each Diagnostic Message, by its addresses and length: acknowledged, refused with which code, or the connection closed |
| `PumpTheorems.HandsOverExactly` | virtual_ecu/virtecu/session.py:968-982 | An acknowledged request waits if fewer than eight do and gets 7F xx 21 otherwise |
| `PumpTheorems.WorkerExactly` | virtual_ecu/virtecu/session.py:993-1005 | The oldest request is taken and its answer carries the handler's bytes |
| `PumpTheorems.TesterStays` | virtual_ecu/virtecu/session.py:740-806 | The first accepted activation binds the connection to its tester for the rest of every run |
| `PumpTheorems.StepKeeps` | virtual_ecu/virtecu/session.py:505-1025 | Every step of pump and worker keeps the invariant |
| `PumpWorker.EcuSession.HandleDiagnostic` | virtual_ecu/virtecu/session.py:846-954 | Sets the version to echo, then refuses, closes or acknowledges in the order of the checks |
| `PumpWorker.EcuSession.PutOrBusy` | virtual_ecu/virtecu/session.py:968-982 | Queues the request with the version, or answers NRC 0x21 when eight are waiting |
| `PumpWorker.EcuSession.WorkerGet` | virtual_ecu/virtecu/session.py:993-994 | Takes the oldest waiting request |
| `PumpWorker.EcuSession.Respond` | virtual_ecu/virtecu/session.py:996-1005 | Answers in the captured version and to the captured address |
| `ResponsePending.DispatchWithP2` | virtual_ecu/virtecu/session.py:1121-1150 | The timed loop sends exactly the closed-form schedule |
| `ResponsePending.PendingArithmetic` | virtual_ecu/virtecu/session.py:1081-1164 | With or without automatic pending responses: pending frame j is sent, at the end of window j, exactly if they are on, the handler still runs, the cap is not used up and the connection is there; a reply exactly if the handler finishes with one in time and was not given up; NRC 0x10 exactly if it was; either is the last frame |
| `ResponsePending.PendingTimes` | virtual_ecu/virtecu/session.py:1123-1150 | In the configured milliseconds: pending frame j at P2 + j * 0.9 P2*, NRC 0x10 at P2 + cap * 0.9 P2* |
| `ResponsePending.WindowsCount` | virtual_ecu/virtecu/session.py:1126-1150 | The division in the closed form counts exactly the windows that end in time |
| `EndToEnd.EndToEndComposition` | doip_edgenode/session.py:757-825 | For every handler, cap and configuration pair the leg is kept exactly when the ECU concludes before the deadline and its first frame after the ACK is within the per-frame timeout; then ACK, all pending frames and the last frame are relayed in order |
| `EndToEnd.EndToEndWithP2` | virtual_ecu/virtecu/session.py:1032-1164 | With P2 below the per-frame timeout, a request that replies or is given up is relayed completely exactly when it ends before `ecu_pending_max_wait_s`; otherwise the leg is retired |
| `EndToEnd.FramesPassTheReader` | doip_edgenode/ecu_client.py:232-255 | Every frame the VirtualEcu sends for a request passes the EdgeNode's ECU reader unchanged |
| `EndToEnd.WaitsThrough` | doip_edgenode/session.py:757-775 | After a pending frame, silent waits are passed until the next frame or the deadline |
| `Security.StateIsLogged` | virtual_ecu/virtecu/services/security.py:49-143 | Session, level, armed seed and attempt counter are functions of the observable requests and replies; an armed seed is odd and above the level |
| `Security.LevelWasEarned` | virtual_ecu/virtecu/services/security.py:90-143 | Level L > 0 means that since the last relock requestSeed 2L-1 was answered with the seed and then the right key arrived on 2L, with no wrong key between |
| `Security.UnlockExactly` | virtual_ecu/virtecu/services/security.py:110-143 | A key is granted exactly when its seed is armed and it is the expected key; NRC 0x36 exactly from the configured attempt on |
| `Security.LevelOnlyRises` | virtual_ecu/virtecu/core.py:55-69 | Between relocks the level never falls and rises strictly at every unlock |
| `Security.UnlockWasEarned` | virtual_ecu/virtecu/services/security.py:110-143 | Every accepted key was the expected one for the seed issued just before it |
| `Security.ExpectedKey` | virtual_ecu/virtecu/services/security.py:81-87 | The right key always passes the length check |
| `Security.KeyBytes` | virtual_ecu/virtecu/services/security.py:81-87 | Each byte of the right key under the three algorithms |
| `Security.SeedsExactly` | virtual_ecu/virtecu/services/security.py:49-107 | Each reply to a seed request from its bytes and the log: NRCs in order, zeros at or below the level reached, the seed above |
| `Security.KeysExactly` | virtual_ecu/virtecu/services/security.py:110-143 | Each reply to a key from its bytes and the log |
| `Security.SessionAndResetExactly` | virtual_ecu/virtecu/services/session_control.py:30-60 | Session control and reset are granted by length and sub-function alone |
| `Security.ResetLocksExactly` | virtual_ecu/virtecu/services/reset.py:73-95 | A granted ECUReset leaves the state locked exactly if it keeps the connection or there was nothing to lock |
| `Security.VanishingResetKeepsLevel` | virtual_ecu/virtecu/services/reset.py:75-86 | Counterexample: with `reset_drops_connection` the level survives the reset and is there for a request queued behind it |
| `Security.TimingBytes` | virtual_ecu/virtecu/services/session_control.py:58-60 | The response of session control carries P2 in milliseconds and P2* in tens, each cut to two bytes |
| `SessionTable.SessionState.Answer` | virtual_ecu/virtecu/session.py:1043-1045 | Restarts S3, then serves session control, reset and security access as the transition function says |
| `SessionTable.SessionState.AnswerSendKey` | virtual_ecu/virtecu/services/security.py:110-143 | New state and reply of sendKey |
| `SessionTable.SessionState.AnswerRequestSeed` | virtual_ecu/virtecu/services/security.py:90-107 | New state and reply of requestSeed |
| `SessionTable.SessionState.RefreshS3` | virtual_ecu/virtecu/core.py:73-90 | The timer runs afterwards exactly in a non-default session with S3 enabled |
| `SessionTable.EcuCore.SessionFor` | virtual_ecu/virtecu/core.py:191-209 | The tester's own entry if there is one, else a fresh default state; the table stays valid |
| `SessionTable.EcuCore.MaybeDropSessionState` | virtual_ecu/virtecu/core.py:211-244 | Drops the entry exactly when it is the caller's own and in the default session, locked and without a pending seed; no state changes |
| `SessionTable.EcuCore.DropSessionState` | virtual_ecu/virtecu/core.py:246-258 | Forgets exactly that entry; no other state changes |
| `SessionTable.EcuCore.HandleRequest` | virtual_ecu/virtecu/services/reset.py:73-95 | A request on any held state keeps every non-default table entry's timer running; a vanishing reset forgets the entry |
| `SessionTable.EcuCore.S3Expiry` | virtual_ecu/virtecu/core.py:92-109 | The state is fresh again and gone from the table, and only it |
| `SessionTable.ServeTimed` | virtual_ecu/virtecu/core.py:73-90 | After every request the timer runs exactly in non-default sessions |
| `SessionTable.TidyIsFreshExactly` | virtual_ecu/virtecu/core.py:216-218 | A state the table drops is what a fresh one would hold exactly if no wrong key has been counted |
| `EcuRunTheorems.CounterExactly` | virtual_ecu/virtecu/core.py:191-244 | In every run of activations, requests, closes and expiries: a tester's attempt counter counts exactly its wrong keys since its last relock or unlock, on whatever object, if and only if none of them was given on an object other than the entry or on an entry dropped since, and none counted is from before a relock or unlock on another object; it has the right number if and only if there are as many of the one kind as of the other |
| `EcuRunTheorems.HarmsExactly` | virtual_ecu/virtecu/core.py:92-109 | The step that makes the counter inexact: a socket closes and its tidy, counting entry goes; a wrong key is served by an object that has left the table; or such an object is relocked or unlocked while the entry counts. No other step does |
| `EcuRunTheorems.OrphanKeyNotCounted` | virtual_ecu/virtecu/core.py:92-109 | Counterexample: S3 drops the entry of a live socket, a wrong key follows on its object, and after a reconnect the counter is 0 |
| `EcuRunTheorems.ReconnectForgetsWrongKey` | virtual_ecu/virtecu/core.py:238-244 | Counterexample: a run with one wrong key and a reconnect, after which the counter is 0 |
| `EcuRunTheorems.KeptWithoutTimer` | virtual_ecu/virtecu/core.py:73-90 | In every run, an entry without a socket is not tidy, and no timer watches it exactly if S3 is disabled or it is in the default session with a level or a pending seed |
| `EcuRunTheorems.UnlockedDefaultStateStays` | virtual_ecu/virtecu/core.py:238-244 | Counterexample: a run after which the table keeps an unlocked default-session state without a socket, and keeps it in every continuation in which the tester stays away |
| `EcuRunTheorems.ProtectedValueEarned` | virtual_ecu/virtecu/services/data_identifier.py:146-159 | In every run, an identifier with write security L > 0 that differs from its default was written by a state of level at least L which, since its last relock, had been sent the seed and given the right key |
| `EcuRunTheorems.ValuesChangeExactly` | virtual_ecu/virtecu/services/data_identifier.py:117-159 | In the running core an identifier changes exactly by a write that passes its gates in the serving object's session and level, or a restoring reset |
| `EcuRunTheorems.ActivatesExactly` | virtual_ecu/virtecu/core.py:191-209 | Activation finds the entry or makes a fresh default one |
| `EcuRunTheorems.ClosesExactly` | virtual_ecu/virtecu/core.py:211-244 | A closing socket takes its entry along exactly if that is default, locked and without a seed |
| `EcuRunTheorems.ForgetsExactly` | virtual_ecu/virtecu/core.py:92-109 | An expiry forgets exactly its own entry and leaves a fresh state; a request forgets one exactly if it is a reset that drops the connection |
| `EcuRunTheorems.StepKeeps` | virtual_ecu/virtecu/core.py:191-264 | Every step keeps table, histories, counters, timers and write records consistent |
| `DidConfig.EncodingRepresents` | virtual_ecu/virtecu/config.py:529-557 | Encoding succeeds exactly when some byte string of the declared length represents the value, and gives it |
| `DidConfig.BigEndianRoundTrip` | virtual_ecu/virtecu/config.py:542-548 | Decoding an encoded unsigned value gives it back |
| `DidConfig.LoadedIsWellFormed` | virtual_ecu/virtecu/config.py:560-611 | Loaded values have their declared length, only dynamic identifiers lack a value, and writable ones have one |
| `DidConfig.LoadsExactly` | virtual_ecu/virtecu/config.py:560-611 | Which entries load, and that length, flags and gates arrive unchanged |
| `DidConfig.LoadDids` | virtual_ecu/virtecu/config.py:614-625 | The table loads exactly when every entry is good and none is declared twice, and holds exactly the entries |
| `DidStore.Store.ReadDataByIdentifier` | virtual_ecu/virtecu/services/data_identifier.py:50-75 | The loop computes the reply function, stopping at the first refused identifier |
| `DidStore.Store.WriteDataByIdentifier` | virtual_ecu/virtecu/services/data_identifier.py:117-159 | New store and reply of a write, gates in the order of the code |
| `DidStore.Store.Reset` | virtual_ecu/virtecu/store.py:69-75 | Every value is its default again |
| `DidStore.Store.EcuReset` | virtual_ecu/virtecu/core.py:260-264 | Restores the defaults only if the configuration says so |
| `DidTheorems.DidStoreInvariant` | virtual_ecu/virtecu/store.py:55-75 | Over every history declared lengths hold, read-only identifiers equal their default, and each value is the last one accepted since the last reset |
| `DidTheorems.DifferenceExplained` | virtual_ecu/virtecu/services/data_identifier.py:117-159 | A value that differs from its default comes from a write that passed write flag, NRC, session, security and length gates, with no reset since |
| `DidTheorems.AcceptedExactly` | virtual_ecu/virtecu/services/data_identifier.py:142-159 | A write is accepted exactly when every gate allows it, and otherwise changes nothing |
| `DidTheorems.ReadsExactly` | virtual_ecu/virtecu/services/data_identifier.py:50-113 | The answer for one identifier is its stored value exactly if it is declared, readable, static and every read gate is open; each refusal by its cause |
| `DidTheorems.ReadGivesStoredValue` | virtual_ecu/virtecu/services/data_identifier.py:50-113 | A read request for such an identifier is answered with the identifier and its stored value |
| `DidTheorems.ReadGivesLastWrite` | virtual_ecu/virtecu/services/data_identifier.py:100-104 | In every history a read after an accepted write gives that write's bytes until a reset |
| `DidTheorems.WritesExactly` | virtual_ecu/virtecu/services/data_identifier.py:117-159 | Reply and new store of every write, each NRC by its cause |
| `DidTheorems.ValueNeverMissing` | virtual_ecu/virtecu/services/data_identifier.py:100-103 | The "has no value" branch is unreachable |
| `DidTheorems.MultiDidReadsBack` | virtual_ecu/virtecu/services/data_identifier.py:50-75 | A multi-DID response parses back to exactly the readable requested identifiers, in request order, with their stored values |
| `DidTheorems.RequestRoundTrip` | virtual_ecu/virtecu/uds.py:272-278 | The identifiers of an encoded request are the ones asked for |
| `Discovery.NoReplyStorm` | doip_edgenode/udp_announcer.py:191-231 | In any network of these responders that loses, delays, duplicates or broadcasts, the number of deliveries is bounded by what was injected |
| `Discovery.RankDrops` | virtual_ecu/virtecu/udp.py:234-307 | Every reply ranks strictly below its cause: request or junk, response, well-formed NACK |
| `Discovery.EdgeAnswersExactly` | doip_edgenode/udp_announcer.py:191-231 | Every datagram at an EdgeNode by its bytes: which NACK, which answer with which payload, or silence |
| `Discovery.EcuAnswersExactly` | virtual_ecu/virtecu/udp.py:234-327 | The same for a VirtualEcu |
| `Discovery.StormFreeExactly` | doip_edgenode/udp_announcer.py:210-213 | In a given network deliveries are bounded for everything that can be injected exactly if none of its EdgeNodes has a payload limit of 0 |
| `Discovery.EndlessNacks` | doip_edgenode/udp_announcer.py:210-213 | With limit 0, one NACK between two EdgeNodes has a run of n deliveries for every n |
| `Discovery.UdpProtocol.DatagramReceived` | doip_edgenode/udp_announcer.py:191-231 | Sends the reply function's frame at once, or schedules it when it is an identification response and fewer than 256 wait |
| `Discovery.UdpProtocol.ScheduleDiscovery` | doip_edgenode/udp_announcer.py:157-174 | Never more than 256 pending replies |
| `Discovery.UdpProtocol.Fire` | doip_edgenode/udp_announcer.py:164-171 | Each scheduled reply goes out at most once and never after teardown |
| `Discovery.UdpProtocol.ConnectionLost` | doip_edgenode/udp_announcer.py:236-239 | Nothing stays pending and nothing can be sent any more |

## Left out

- Sockets, TLS, Scapy dissection, YAML parsing, logging, the CLI, `pc_tester`, `echo_ecu` and example plugins: I/O or foreign code.
- Plugin hooks and handlers: a handler is a finishing time and a result; hooks on ACKs, activation, identification and identifiers are absent.
- Fault-injection middleware: the exchange works on the bytes after it; dropping and replaying frames are absent, and the code itself disclaims attribution under replay (doip_edgenode/session.py:751-752).
- DoIPSession as an object: activation and leg handling are step systems on values, because their steps belong to many tasks of many sessions; update in place is captured in the classes for the registry, the connection and the readers.
- Operation without a registry (`registry is None`) is not modelled; every session has one.
- Activation requests refused before the address lock is taken (wrong type, rebind, out of range) only answer and close, and are covered by closing.
- Timer ties: a frame or a handler result that comes exactly when a wait runs out counts as late, here and in the ECU loop.
- VirtualEcuIsLawful: all legs end in VirtualEcus, and extra frames of plugin handlers are taken to be pending responses, as those of the core services are.
- EverybodyLeaves: a probe whose target stays silent goes on by its timeout; new requests, closes and cancellations from outside are not among the steps counted.
- EdgeNode self-diagnostics, entity status and power mode over TCP, inactivity timers: they would add only easy members.
- VirtualEcu exclusive ownership of addresses: the code awaits the probe without a lock and does not look again, so it does not hold there.
- "A reconnect within S3 finds the same state": expiry removes the entry even while a live socket holds the object, so it is not an invariant.
- "A responsive tester is never evicted": exchanges run inline in the session loop, so a reply can go unread while a probe times out.
- Registered sessions versus open sockets during server shutdown: the server releases writers before sessions unregister.
- Response suppression, routines, and the deterministic announcement delay.
- ExchangeOutcome: assumes that writes to the tester succeed, because a failed one ends the whole session.
- EndToEndComposition: no network delay, one request at a time and no suppressed response, as the composition is about the two timers.
- MultiDidReadsBack: the parser is given the length of each value, because identifiers without a declared length carry none on the wire.
