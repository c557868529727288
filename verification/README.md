# Fleet control: a verified model

A Dafny model of the concurrent and stateful parts of the fleet-control backend, its robot simulator and the
dashboard's event log, with proofs of what they keep over every run. `dafny verify dfyconfig.toml` checks it.

| component | files | what is proved |
|---|---|---|
| Command lifecycle | `CommandModel`, `CommandProtocol`, `CommandSafety`, `CommandRuns`, `CommandTheorems`, `CommandTimes`, `CommandClaims`, `CommandOutcomes`, `CommandStore` | Any number of creators, PATCHers, pollers, robots and scanners on one table at READ COMMITTED, cut at every await, with crashes: legal histories, honest answers and broadcasts, single claims, single application, idempotent creation, ordered stamps, termination of the claim loop, nothing dispatched that is not returned, no overdue command that survives a scan. |
| Telemetry stream and roster | `Stream`, `StreamSafety`, `StreamTheorems`, `Roster` | A consumer group with retries, crashes, idle claims and trimming: the fate of every entry, exactly when a reading is stored and when it is stored once, an exact roster under any replay. |
| WebSocket fan-out | `Fanout` | A drop-oldest queue per client: a complete account of every frame, and clients that cannot disturb each other. |
| Simulator | `RobotModel`, `RobotSafety`, `RobotLaws`, `FleetMissions`, `FleetTheorems`, `RobotStates` | Ticks, commands and dispatch rounds interleaved at every await: missions are neither lost nor shared, parked robots stay put, progress never drops, temperatures stay in bounds, charging finishes. |
| Rate limiter | `RateLimiter` | The pruned window and the Redis sorted set decide as a count over the whole history. |
| Event log | `EventBuffer` | Truncating at each merge loses nothing. |
| Fleet status | `FleetStatus` | From a device timestamp to the OFFLINE badge. |
| Tickets | `Tickets` | Print and verify round trip, and what acceptance means. |

Protocols are functions `Apply(world, step)` on values, a run is any sequence of steps, and the main theorems
quantify over all runs. Code that the source writes as updates of an object is also given as a class or method
(`CommandTable`, `Database`, `ConnectionManager`, `RobotState`, `Dispatcher`, `MemoryLimiter`, `EventFeed`, the
loops of `FleetStatus`), proved against those functions.

## Assumptions

- One SQL statement, one commit or one Redis command is one atomic step; an UPDATE waits for a row that another
  open transaction has written. Python code between two awaits is one step.
- One clock serves the application and the database. Only `StampsInOrder` needs it to move forward.
- A fresh uuid has not been used before. One process runs under each consumer name. A WebSocket object is accepted
  once (a second accept raises), so `connect` never meets an active socket.
- PostgreSQL's `now()` is the start of the transaction, so the scanner's `completed_at` may precede a stamp that
  was committed during its scan.
- The Redis lock around the timeout scanner is not modelled. It is deleted without checking who holds it
  (backend/app/worker.py:368-378), and nothing here relies on it.
- Random draws, clocks and distances are inputs, restricted to the ranges of the source's calls; simulator
  arithmetic is over exact reals.

## Where the code and its documentation differ

- docs/architecture.md:43 says each row is persisted exactly once. The worker is at-least-once:
  `CrashDuplicates` shows two rows for one entry; `ExactlyOnce` gives the exact condition.
- An entry trimmed while pending is acknowledged without being persisted (`TrimLoses`; `StoredExactly` and
  `AckedMeansPersisted` give the exact condition).
- `verify_ticket` promises False on anything malformed, but a non-ASCII signature makes `hmac.compare_digest` raise
  (`NonAsciiSignatureRaises`; the exact condition is `RaisesExactly`).
- Lifecycle stamps are in order except for commands ended by the scanner (`ScannerStampsEarly`, `StampsInOrder`).

## Model

| member | source | states |
|---|---|---|
| CommandSafety.PathClimbs | backend/app/services/command_service.py:22-30 | Along any path of the transition table the rank of the status strictly grows, so no status recurs and none follows a terminal one. |
| CommandSafety.Predecessors | backend/app/services/command_service.py:22-30 | The transition table read by target: which statuses may precede each one. |
| CommandSafety.RowStep | backend/app/services/command_service.py:109-140 | A legal write appended to a history keeps the row consistent with it: last status, stamps set exactly for the states visited. |
| CommandSafety.CommitKeeps | backend/app/services/command_service.py:131-140 | Committing any open transaction, whoever owns it, keeps the whole invariant of table, histories, requests in flight and announcements. |
| CommandSafety.InsertKeeps | backend/app/services/command_service.py:52-66 | Inserting a created command keeps the invariant, including one row per robot and idempotency key. |
| CommandRuns.PatchSound | backend/app/services/command_service.py:94-169 | Every step of a PATCH, with its own read, clock, compare-and-set, commit and re-read, is one the invariant allows. |
| CommandRuns.ClaimSound | backend/app/routes/commands.py:58-90 | Every step of the claim loop is one the invariant allows; in particular a claimed command was PENDING at its compare-and-set. |
| CommandRuns.ScanSound | backend/app/worker.py:304-355 | Every step of the timeout scan, its UPDATEs private until the commit, is one the invariant allows. |
| CommandRuns.StepKeeps | backend/app/services/command_service.py:94-169 | Any step of any actor, a crash included, keeps the invariant. |
| CommandRuns.Reachable | backend/app/worker.py:289-355 | The invariant holds after every run. |
| CommandTheorems.StatusHistories | backend/app/services/command_service.py:22-30 | In every run each command's committed history is a path of the table from PENDING of at most four transitions, never visiting a status twice nor leaving a terminal one, and its row shows the last status and the stamps of exactly the states visited. |
| CommandTheorems.TerminalIsFinal | backend/app/services/command_service.py:118-122 | After a terminal status no column of the row ever changes, however the run goes on. |
| CommandTheorems.HonestAnswers | backend/app/services/command_service.py:114-169 | A successful PATCH implies the requested status and the reported one were committed; after a 400, 404 or 409 the request has committed nothing. |
| CommandTheorems.HonestNotices | backend/app/services/command_service.py:161-169 | Every status ever broadcast for a command had been committed. |
| CommandTheorems.NoFalseTimeout | backend/app/worker.py:314-355 | A command announced as TIMEOUT is TIMEOUT then and ever after. |
| CommandTheorems.ClaimedOnce | backend/app/repositories/command_repo.py:41-64 | Two claim calls at any two moments of a run never return the same command. |
| CommandTheorems.AppliedAtMostOnce | simulator/robot_sim.py:447-505 | Over all robot loops, with lost responses and lost PATCHes, no command is applied twice, and the already-processed branch never fires. |
| CommandTheorems.IdempotentCreate | backend/app/services/command_service.py:45-80 | One row per robot and non-null key; all calls with that pair return the same id; the lookup after a conflict always finds a row of its own robot and key. |
| CommandOutcomes.ClaimReturnsAll | backend/app/routes/commands.py:71-90 | In every run, a claim that has returned lists every command it dispatched, and each of them is then still to be handled by the robot loop or applied: without a crash none is lost. |
| CommandOutcomes.ClaimLeavesNonePending | backend/app/routes/commands.py:61-64 | The loop returns only when nothing is PENDING for its robot. |
| CommandOutcomes.CommitsAnnounced | backend/app/services/command_service.py:161-169 | A request that has finished without a crash has broadcast something about every command it changed. |
| CommandOutcomes.ScanFinishes | backend/app/worker.py:304-344 | In every run, a command that was overdue and not terminal when a scan selected is terminal once the scan has committed or found no hit. |
| CommandOutcomes.HonestRefusals | backend/app/services/command_service.py:118-159 | A 400 means the command has had a status from which the requested one may not be entered, a 409 that it had one from which it may and then another than the requested. |
| CommandOutcomes.LookupExact | backend/app/services/command_service.py:198-205 | The lookup answers 404 exactly if there is no such command. |
| CommandOutcomes.DeadlineFixed | backend/app/services/command_service.py:47-62 | In every run each deadline is creation plus timeout, and there is none without a timeout other than zero. |
| CommandOutcomes.NobodyStuck | backend/app/services/command_service.py:94-169 | Every unfinished request of any kind has a step to take unless another transaction has locked the row it wants. |
| CommandTimes.StampsInOrder | backend/app/services/command_service.py:173-196 | Under a forward clock created <= dispatched <= acknowledged <= started always, and <= completed unless the scanner ended the command; then created <= completed and the deadline is before completed. |
| CommandTimes.TransitionTimely | backend/app/services/command_service.py:109-140 | A transition computed from a row read earlier than its clock reading keeps the stamps in order. |
| CommandTimes.ScannerStampsEarly | backend/app/worker.py:323-327 | A run in which the scanner's completed_at precedes dispatched_at. |
| CommandClaims.ClaimTerminates | backend/app/routes/commands.py:61-90 | With nothing created for its robot, a claim call moves at most five times per PENDING command of that robot plus once, against arbitrary competing writers and creators for other robots. |
| CommandClaims.ClaimNeverStuck | backend/app/routes/commands.py:61-69 | Unless another transaction has locked the row it wants, the loop always has a next step, so bounded moves mean that it ends. |
| CommandClaims.OwnMoveSpends | backend/app/routes/commands.py:61-69 | Each round of the loop brings its end closer, whether its compare-and-set wins or loses. |
| CommandStore.CommandTable.CreateCommand | backend/app/services/command_service.py:47-80 | If the robot already has the non-null key, the table is unchanged and that row is found; otherwise one PENDING row with the request's columns and its deadline is added. |
| CommandStore.CommandTable.TransitionValues | backend/app/services/command_service.py:173-196 | For an allowed target the new row is a legal write: the clock reading goes into the stamp of the target status and no other; COMPLETED stores the result given, the other terminal statuses store the error and a non-empty result; nothing else changes. |
| CommandStore.CommandTable.UpdateStatus | backend/app/services/command_service.py:94-169 | With rivals committing at each await: exactly when 404, 400, 409 and success are answered, that a hit overwrites precisely the validated row, and that after a terminal hit completed_at, error and result stay what the request gave. |
| CommandStore.CommandTable.NextPending | backend/app/repositories/command_repo.py:25-37 | A PENDING row of the robot with the least created_at, or none if there is none. |
| CommandStore.CommandTable.ClaimPending | backend/app/routes/commands.py:51-90 | The loop ends with nothing PENDING for the robot and returns, oldest first and once each, every command that was PENDING at the start except those a rival took at one of its awaits; what it returns has been stamped as dispatched. |
| CommandStore.CommandTable.ScanForTimeouts | backend/app/worker.py:304-344 | Every command with a deadline before the clock reading ends terminal; exactly those announced are TIMEOUT by this scan, and each of them was overdue and not terminal when selected. |
| CommandStore.RunsEvolve | backend/app/services/command_service.py:131-140 | What those methods assume of rivals holds in every run of the protocol. |
| Roster.LatestIsLatest | backend/app/worker.py:88-93 | The fold yields exactly the robots of the batch, each with its greatest timestamp. |
| Roster.SeenExtends | backend/app/repositories/robot_repo.py:31-63 | Upserting a batch into an exact roster gives the exact roster of all rows. |
| Roster.SeenNeverRewinds | backend/app/repositories/robot_repo.py:39-43 | From any roster, nulls included, last_seen never moves back. |
| Roster.RosterUnique | backend/app/repositories/robot_repo.py:53-62 | Exact rosters of the same set of readings are equal. |
| Roster.ReplayedExact | backend/app/worker.py:88-95 | From an empty roster, after any batches, last_seen is the maximum over all readings of the robot. |
| Roster.ReplayOrderIrrelevant | backend/app/repositories/robot_repo.py:39-43 | Order, grouping and repetition of readings do not matter. |
| Roster.Database.RegisterRobots | backend/app/worker.py:76-95 | The loop and upsert leave the roster that marking the fold as seen gives. |
| Roster.Database.ProcessBatch | backend/app/worker.py:50-156 | All ids are returned; each telemetry message, and no other, adds one row with its measured columns, its robot or 0, and its time or the clock reading; both insert modes end in the same telemetry and an exact roster; a message that is no object raises with nothing written. |
| StreamSafety.RowsFitBatch | backend/app/worker.py:116-128 | Exactly the readings of a batch become rows, one per entry. |
| StreamSafety.StepKeeps | backend/app/worker.py:212-269 | Every step of every worker, Redis trimming and crashes included, keeps the stream invariant. |
| StreamTheorems.EntryFates | backend/app/worker.py:212-269 | Every entry is exactly one of undelivered, pending for one consumer, acknowledged, or dropped by trimming. |
| StreamTheorems.StoredExactly | backend/app/worker.py:130-144 | A reading has a row if and only if a batch with its content was acknowledged, or a delivery that had committed it failed, acknowledged after somebody else, or is about to acknowledge. |
| StreamTheorems.AckedMeansPersisted | backend/app/worker.py:113-156 | An acknowledged reading is stored if its content was there and had been trimmed if not; if nobody took it over, it is stored if and only if its content was there or an earlier delivery crashed after committing it. |
| StreamTheorems.ExactlyOnce | backend/app/worker.py:246-254 | A reading acknowledged with its content has exactly one row if and only if no delivery committed it and then failed before XACK, none committed it and sent XACK after somebody else, and none is about to. |
| StreamTheorems.OnceUnlessCrashed | backend/app/worker.py:133-136 | If no other worker took the reading over while it was held, it has exactly one row if and only if no delivery crashed between commit and XACK. |
| StreamTheorems.RowsWithinDeliveries | backend/app/worker.py:133-144 | An entry never has more rows than deliveries, in any run. |
| StreamTheorems.RowsRepeatMessages | backend/app/worker.py:50-73 | In every run each row repeats its message: all measured columns, the robot or 0, and the time if it had one. |
| StreamTheorems.ModesAgree | backend/app/worker.py:133-144 | Undisturbed, committing row by row and then the roster ends exactly where one batch insert ends. |
| StreamTheorems.ReadTakesNext | backend/app/worker.py:237-239 | A read of new entries returns the next ones in order with their content, and they are pending for the reader. |
| StreamTheorems.TakeoverMoves | backend/app/worker.py:222-231 | A takeover moves exactly the claimed entries to the claiming worker. |
| StreamTheorems.AckClears | backend/app/worker.py:253-254 | After XACK no entry of the batch is pending, whoever it belonged to, and the worker is free. |
| StreamTheorems.RosterFollowsRows | backend/app/worker.py:133-136 | In batch mode, after any run, the roster is exact for the committed rows; no row lacks an entry at least as recent. |
| StreamTheorems.SameRows | backend/app/worker.py:116-134 | The protocol's commit writes what ProcessBatch builds. |
| StreamTheorems.CrashDuplicates | backend/app/worker.py:136-254 | A crash between commit and XACK persists a reading twice. |
| StreamTheorems.TrimLoses | backend/app/worker.py:116-120 | A trimmed pending entry is acknowledged and never persisted. |
| Fanout.WithoutRemoves | backend/app/websocket_manager.py:89-90 | Removing a socket from a duplicate-free list removes exactly that socket. |
| Fanout.PushAccounts | backend/app/websocket_manager.py:216-231 | Enqueuing keeps a client's account: the queue stays a suffix of the log of at most 256 frames, and a displaced frame is booked as dropped. |
| Fanout.TakeAccounts | backend/app/websocket_manager.py:103-105 | Taking a frame keeps the account; it is newer than everything sent before. |
| Fanout.StepKeeps | backend/app/websocket_manager.py:74-114 | Every connect, disconnect, broadcast, take, completed and failed send keeps the invariant. |
| Fanout.RegistryAgrees | backend/app/websocket_manager.py:74-97 | In every run queues, senders, the connection list (without duplicates) and the gauge agree. |
| Fanout.DeliveryAccount | backend/app/websocket_manager.py:99-114 | In every run, for each client: broadcast = sent + in flight + queued + dropped, sends in broadcast order, queue a contiguous suffix, drops only behind 256 newer frames. |
| Fanout.DropsCounted | backend/app/websocket_manager.py:220-231 | The dropped-frames counter equals the frames dropped over all clients, past ones included. |
| Fanout.BroadcastReaches | backend/app/websocket_manager.py:209-231 | A broadcast becomes the last queued frame of every client; at most the oldest one makes room. |
| Fanout.ComesAndGoes | backend/app/websocket_manager.py:74-112 | A new socket is served from an empty queue; one that left, or whose send failed, is forgotten. |
| Fanout.SenderWorks | backend/app/websocket_manager.py:99-105 | An idle sender takes the oldest queued frame, and a finished send puts exactly it on the wire. |
| Fanout.SlowClientsIsolated | backend/app/websocket_manager.py:12-18 | What a client receives, queues and loses is unchanged if every step of the other sockets is deleted from the run. |
| Fanout.ConnectionManager.Connect | backend/app/websocket_manager.py:74-84 | Registers the socket with an empty queue and a sender, keeping the registry. |
| Fanout.ConnectionManager.Disconnect | backend/app/websocket_manager.py:87-97 | Removes every trace of the socket; harmless if it is already gone. |
| Fanout.ConnectionManager.Offer | backend/app/websocket_manager.py:217-231 | The newest frame is always queued; the second QueueFull branch cannot be reached. |
| Fanout.ConnectionManager.EnqueueToAllClients | backend/app/websocket_manager.py:209-231 | The loop leaves every client's queue with the frame last and at most its oldest frame gone, and counts one drop per full queue. |
| Fanout.ConnectionManager.SenderGet | backend/app/websocket_manager.py:103-103 | The oldest queued frame goes in flight. |
| Fanout.ConnectionManager.SenderDone | backend/app/websocket_manager.py:104-112 | A finished send frees the sender, a failed one disconnects the client. |
| RobotSafety.ProgressEnds | simulator/robot_sim.py:663-669 | Progress is 0 at the start and 100 exactly when the last step is done. |
| RobotSafety.ProgressMonotone | simulator/robot_sim.py:711-715 | Rounded progress never falls as steps are completed. |
| RobotSafety.BurnTemp | simulator/robot_sim.py:753-762 | Driving never cools below ambient, nor heats past ambient + 10.375. |
| RobotSafety.ChargeTemp | simulator/robot_sim.py:616-642 | The same for charging, suspended or not. |
| RobotSafety.BurnDrains | simulator/robot_sim.py:604-607 | Every moving tick costs at least 0.016 percent of charge. |
| RobotSafety.BurnHeats | simulator/robot_sim.py:684-691 | A robot at ambient temperature warms up by moving; one at 80 degrees or more cools even while it drives at half speed. |
| RobotSafety.SpeedWears | simulator/robot_sim.py:225-233 | Motor wear only slows a robot down, to 45 percent at worst; a new one drives at the speed of its mission. |
| RobotSafety.DockedActs | simulator/robot_sim.py:616-646 | A charging tick below the suspension limit gains at least 0.1925 percent or fills the battery, however worn it is. |
| RobotSafety.TravelApproaches | simulator/robot_sim.py:679-681 | A move leaves exactly the difference between distance and step to the goal, overshoot included. |
| RobotSafety.ReachedTracked | simulator/robot_sim.py:710-722 | Reaching a waypoint advances the step by one and keeps progress in step. |
| RobotSafety.TriggeredOk | simulator/robot_sim.py:563-580 | The low-power triggers never leave a robot with a mission and returning. |
| RobotSafety.MovedOk | simulator/robot_sim.py:584-791 | Each of the five physics branches keeps the robot's invariant and, without a spike, its temperature cap. |
| RobotSafety.ActedOk | simulator/robot_sim.py:509-580 | So does the whole piece of the tick after the command poll, death and stop included. |
| RobotSafety.ObeyedOk | simulator/robot_sim.py:480-501 | So does every command. |
| RobotSafety.FinishedOk | simulator/robot_sim.py:741-762 | So does the end of a tick that completed a mission. |
| RobotLaws.DrivesLaw | simulator/robot_sim.py:648-751 | With a mission, charge above 25 and no pause, a robot counts a waypoint within 0.45 and otherwise drives towards it at positive speed, also above 80 degrees. |
| RobotLaws.PausesLaw | simulator/robot_sim.py:704-705 | During a pause a robot keeps its place and mission and slows down. |
| RobotLaws.GoesHomeLaw | simulator/robot_sim.py:563-602 | Returning, or at 25 percent with a mission or 50 without, a robot drops its mission and docks within 0.5 of the base or drives there. |
| RobotLaws.ChargesLaw | simulator/robot_sim.py:616-646 | On the pad and cool a robot gains at least 0.1925 percent a tick and is active exactly when full. |
| RobotLaws.SuspendsLaw | simulator/robot_sim.py:619-634 | At 80 degrees charging is suspended; the robot only cools, until 60 degrees. |
| RobotLaws.IdlesLaw | simulator/robot_sim.py:764-769 | Without a task and with charge above 50 a robot stays put, coasts down and cools. |
| RobotLaws.DiesLaw | simulator/robot_sim.py:509-527 | At 5 percent or 95 degrees a robot is dead at the end of the poll, whatever it was doing, and holds nothing. |
| RobotLaws.TickWears | simulator/robot_sim.py:773-791 | Every component above the floor wears in every such tick and none recovers; a spike adds to the temperature and to nothing else. |
| FleetMissions.NearestIsNearest | simulator/robot_sim.py:368-388 | The selected robot is eligible, no eligible one is closer, and it is the first among equals. |
| FleetMissions.BuiltProper | simulator/robot_sim.py:158-204 | Every mission built has two to six steps, visits its points in order and starts at the first; patrols and deliveries end at the base, only inspections pause. |
| FleetMissions.DispatchConserves | simulator/robot_sim.py:367-390 | A round only moves missions from the queue to robots, counted with multiplicity. |
| FleetMissions.DroppedMissions | simulator/robot_sim.py:667-675 | A mission is recorded as finished exactly if its last step was done when the robot let it go, and as given up otherwise. |
| FleetMissions.StepKeeps | simulator/robot_sim.py:416-825 | Every tick piece, command and dispatch round keeps the fleet invariant. |
| FleetTheorems.MissionPlaces | simulator/robot_sim.py:356-396 | In every run each mission built is in exactly one of queue, one robot, finished, given up. |
| FleetTheorems.RobotsConsistent | simulator/robot_sim.py:510-560 | In every run: no index error, no mission while returning, a STOPPED or DEAD robot holds nothing at speed 0, DEAD only by battery or heat, progress 100 exactly after the last step. |
| FleetTheorems.QueuedMissionsProper | simulator/robot_sim.py:383-386 | Whenever the dispatcher measures from a mission's first step, there is one. |
| FleetTheorems.DispatchSaturates | simulator/robot_sim.py:367-390 | After a round either no mission waits or no robot is eligible. |
| FleetTheorems.EligibleExactly | simulator/robot_sim.py:368-378 | The dispatcher tasks exactly the robots that are online, ACTIVE or LOW POWER, idle, not returning and above 20 percent. |
| FleetTheorems.NearestByDistance | simulator/robot_sim.py:382-388 | A mission goes to a free robot than which no free robot is closer to its first stop, the earliest of the closest. |
| FleetTheorems.ProgressNeverDrops | simulator/robot_sim.py:710-722 | Between any two moments of a run at which a robot holds a mission, its progress has not decreased. |
| FleetTheorems.StopHolds | simulator/robot_sim.py:488-495 | After EMERGENCY_STOP within the limits, status, position, charge and temperature stay fixed and no mission arrives, until RESUME or RETURN_TO_BASE. |
| FleetTheorems.StopOverruled | simulator/robot_sim.py:510-527 | Past the limits the same poll ends in DEAD, so the limits are the exact condition. |
| FleetTheorems.PhysicalBounds | simulator/robot_sim.py:773-819 | In every run, spikes included, temperature is at least ambient, speed within 2.2, health within 10 to 100. |
| FleetTheorems.ThermalCeiling | simulator/robot_sim.py:604-694 | Without spikes temperature never passes ambient + 10.375, so the 80-degree branches never fire. |
| FleetTheorems.ChargingFinishes | simulator/robot_sim.py:616-646 | In every run without spikes, however the fleet interleaves, a docked robot that gets no command is full and active again by its 494th tick. |
| RobotStates.RobotState.AssignMission | simulator/robot_sim.py:207-214 | An eligible robot given a queued mission keeps its invariant: it holds that mission at progress 0, is active and not returning, and its body, health and place in the loop are untouched. |
| RobotStates.RobotState.Obey | simulator/robot_sim.py:480-501 | Every command keeps the robot's invariant; EMERGENCY_STOP leaves it stopped at speed 0 with nothing held, RETURN_TO_BASE active and returning without a mission, RESUME active with its task; position, charge and temperature never change, and an unknown command changes nothing. |
| RobotStates.RobotState.Act | simulator/robot_sim.py:509-791 | The in-place tick obeys all the laws of `RobotLaws`, keeps the robot's invariant (no index error, nothing held when stopped or dead, physical bounds), never rewinds a mission, stays under the heat cap without a spike, and leaves a stopped robot exactly as it was. |
| RobotStates.RobotState.Wake | simulator/robot_sim.py:416-419 | The tick's length is the time since the last one, held within 0.1 and 2.5 seconds. |
| RobotStates.RobotState.Mourn | simulator/robot_sim.py:529-554 | A dead robot is replaced once its delay is over, by a full, cool and healthy one, and not before. |
| RobotStates.RobotState.Advance | simulator/robot_sim.py:651-722 | A waypoint within 0.45 is counted, paused at if it says so, and nothing else of the mission changes; progress stays in step and the last one counts as a completion; otherwise the distance to the waypoint becomes the difference between distance and step. |
| RobotStates.RobotState.Finish | simulator/robot_sim.py:741-791 | After the report nothing is held, the completion stays counted, the robot has not moved, its invariant holds and without a spike its heat cap too. |
| RobotStates.RobotState.Close | simulator/robot_sim.py:817-819 | The tick ends asleep with charge, temperature and speed within their limits, each unchanged if it already was (the speed always is), the invariant kept, task, status and place unchanged. |
| RobotStates.Dispatcher.Select | simulator/robot_sim.py:368-388 | The loop finds the model's nearest eligible robot. |
| RobotStates.Dispatcher.DispatchRound | simulator/robot_sim.py:361-394 | Iterating over a copy while removing from the queue, on distinct robot objects: a mission is built if fewer than four wait, only free robots are changed, each gets a mission at its first step, and at the end no mission waits or no robot is free; every invariant is kept. |
| RateLimiter.WindowExact | backend/app/middleware.py:248-253 | A window pruned at every request, pruned now, is the full history pruned now. |
| RateLimiter.MemoryDecides | backend/app/middleware.py:235-254 | A request is admitted iff fewer than max earlier ones, admitted or denied, are newer than the window. |
| RateLimiter.KeysIndependent | backend/app/middleware.py:244-248 | Requests under other keys change no decision. |
| RateLimiter.BudgetHolds | backend/app/middleware.py:262-264 | Admitting by the count over the whole history never admits more than max requests in a half-open window of the configured length. |
| RateLimiter.BudgetKept | backend/app/middleware.py:235-299 | With non-decreasing times, neither the pruned window nor the sorted set lets more than max requests through in any such window. |
| RateLimiter.RedisDecidesAlike | backend/app/middleware.py:283-299 | The sorted set, EXPIRE included, counts what the in-memory window counts. |
| RateLimiter.MemoryLimiter.Check | backend/app/middleware.py:235-254 | The dictionary update decides by the full history. |
| EventBuffer.KeyDetermines | frontend/robot-fleet-dashboard/src/hooks/useFleetData.js:20-20 | Equal keys mean equal robot, instant and text, the message if there is one and else the action. |
| EventBuffer.SeparatorCollides | frontend/robot-fleet-dashboard/src/hooks/useFleetData.js:20-20 | With a separator inside a field two different events can share a key. |
| EventBuffer.SortSorts | frontend/robot-fleet-dashboard/src/hooks/useFleetData.js:29-34 | The sort is newest first, invalid timestamps counting as 0. |
| EventBuffer.UndatedLast | frontend/robot-fleet-dashboard/src/hooks/useFleetData.js:26-34 | An event without a valid date never stands before one dated after 1970. |
| EventBuffer.MergeKeepsTop | frontend/robot-fleet-dashboard/src/hooks/useFleetData.js:15-36 | Merging new events into the top 200 of a log, in front or behind, gives the top 200 of the longer log. |
| EventBuffer.BufferIsTop | frontend/robot-fleet-dashboard/src/hooks/useFleetData.js:111-122 | After any flushes and backfills: distinct keys, newest first, at most 200, nothing left out that is newer than something kept. |
| EventBuffer.TopUnique | frontend/robot-fleet-dashboard/src/hooks/useFleetData.js:34-35 | Those conditions determine the buffer's times. |
| EventBuffer.TruncationLosesNothing | frontend/robot-fleet-dashboard/src/hooks/useFleetData.js:182-184 | Truncating at every merge shows the same times as truncating once at the end. |
| EventBuffer.DedupeEvents | frontend/robot-fleet-dashboard/src/hooks/useFleetData.js:15-36 | The one-pass loop with its key set keeps the first event of each key; sorted and cut, that is the digest the theorems are about. |
| EventBuffer.EventFeed.HandleMessage | frontend/robot-fleet-dashboard/src/hooks/useFleetData.js:144-150 | Only events with a text are queued, newest received first. |
| EventBuffer.EventFeed.FlushPending | frontend/robot-fleet-dashboard/src/hooks/useFleetData.js:160-184 | The flush merges the queued events in front and empties the queue. |
| EventBuffer.EventFeed.BackfillEvents | frontend/robot-fleet-dashboard/src/hooks/useFleetData.js:111-122 | The history is merged behind the live events. |
| FleetStatus.ResolveTimestamp | backend/app/services/telemetry_service.py:49-79 | For every configured skew: never further ahead of reception than the skew allows, and device time is kept whenever it is within it. |
| FleetStatus.GetRecentPerRobot | backend/app/repositories/telemetry_repo.py:144-151 | Each robot's rows of the answer, oldest first, and no others. |
| FleetStatus.GroupsEndNewest | backend/app/repositories/telemetry_repo.py:121-151 | A robot has a group iff it has a row in the window, and the group ends with its newest. |
| FleetStatus.ComputeFleet | backend/app/services/robot_service.py:188-203 | One summary for every robot registered or heard of, in id order, from its newest reading or else silent. |
| FleetStatus.GetFleetStatus | backend/app/services/robot_service.py:182-211 | A page of the unique-per-robot list built from the rows the query returned. |
| FleetStatus.PagesTile | backend/app/services/robot_service.py:207-207 | Consecutive pages show every robot once and never more than the limit. |
| FleetStatus.ListedOnce | backend/app/services/robot_service.py:190-193 | Every active registered robot is listed exactly once, whatever telemetry exists. |
| FleetStatus.BadgeFollowsNewest | backend/app/services/robot_service.py:47-57 | For every configured threshold: OFFLINE if the newest row is too old, and otherwise the status of a newest row in upper case, or ACTIVE if it has none. |
| FleetStatus.SilentShowsRoster | backend/app/services/robot_service.py:132-159 | A registered robot without a row in the window is OFFLINE with the roster's last_seen. |
| FleetStatus.UpperProper | backend/app/services/robot_service.py:57-57 | Letters lose their case and everything else stays. |
| FleetStatus.QuietGoesOffline | backend/app/services/robot_service.py:98-107 | For every configured skew and threshold: if nothing was received from a robot after T, any status computed after T + skew + threshold shows it OFFLINE if it is listed. |
| Tickets.SplitJoin | backend/app/tickets.py:80-88 | Dot-free fields survive joining and splitting. |
| Tickets.ParsePrintInt | backend/app/tickets.py:63-99 | Every printed expiry parses to itself. |
| Tickets.IssuedVerifies | backend/app/tickets.py:60-101 | For every scope and lifetime, an issued ticket is accepted exactly if the scope is dot-free ASCII and the time is before its expiry. |
| Tickets.LifetimeKept | backend/app/tickets.py:62-63 | A ticket is accepted for its lifetime rounded down to whole seconds: never longer, and less than one second shorter. |
| Tickets.AcceptedIffGenuine | backend/app/tickets.py:71-101 | A string is accepted iff its last field signs its first four, with the right scope and an expiry to come. |
| Tickets.NoWidening | backend/app/tickets.py:9-16 | If signatures come from the server only, an accepted ticket has the scope and the lifetime of a ticket the server granted. |
| Tickets.NonAsciiSignatureRaises | backend/app/tickets.py:89-90 | A malformed ticket on which the check raises instead of returning False. |
| Tickets.RaisesExactly | backend/app/tickets.py:77-94 | Exactly when it raises. |
| Tickets.AsciiAnswers | backend/app/tickets.py:71-101 | On ASCII input it always returns an answer. |

## Left out

- Command payloads and error messages: columns that no decision reads.
- The fail-open answers of the rate limiter when Redis is down: they admit everything.
- Exactly-once persistence, broadcast order, and mutual exclusion by Redis locks: the code does not provide them.
- backend/app/telemetry_buffer.py: it empties its buffer before writing, so a failed write loses rows.
- `listen_to_redis` and the naive fan-out mode: reading from "$" may miss messages, and the naive mode is unbounded by design.
- Fleet status: numeric fields and runtime estimates of a summary, and the ten-second cache in front of it.
- Decommissioned robots: recent telemetry lists them again, so nothing is claimed about their absence.
- Simulator: blackouts, viewer gating and geofence events only decide what is reported; wherever the source may await, the model always allows an interleaving.
- The endless loops of `redis_to_db_sync_worker`, `_sender_loop` and `robot_loop` are steps of a run; their in-place parts are the methods of `Database`, `ConnectionManager` and `RobotState`.
- Simulator: sensor noise, telemetry batching and the geometry of random missions.
- RobotStates.Dispatcher.Select: compares squared distances, since rounding of math.hypot is not modelled.
- RobotStates.RobotState.Advance: a mission is a value inside the robot object; that no two robots share one is `MissionPlaces`.
- FleetStatus.BadgeFollowsNewest: for a configured history of at least one row per robot; with none, every robot would be listed as silent.
- CommandClaims.ClaimNeverStuck: a claim waiting for a locked row waits for the transaction that holds it; fairness between transactions is PostgreSQL's.
- FleetStatus.GetRecentPerRobot: takes any correct answer to the SQL query; rows of equal time may come in any order.
- Tickets.ParsePrintInt: white space and digits outside ASCII, and Python's limit on the length of parsed integers.
- EventBuffer.BufferIsTop: requires that robot ids and timestamps do not contain the key separator, as the backend's numbers and ISO dates do not.
- Retention and analytics: single SQL statements whose effect is their text.
- Roles, JWT and password handling, configuration, logging, metrics, migrations and deployment: calls into libraries, without state of their own.
- React components, the reconnecting socket and the simulator's HTTP client: rendering and network plumbing.
