# Swarm command and control: a verified model

A Dafny model of a small command-and-control system. An operator's command is fanned out to robots, tracked, pushed
down each robot's link, applied or refused by the robot, and reported back. Clients watch frames of the whole swarm.

The command path is modelled as one step system. Every region the server executes under a mutex, every callback of the
transport and every step of a robot is one atomic action, and every interleaving of enabled actions is a run. Around it
stand the stores and detectors the server and its clients are made of. Each is a class whose methods update its fields
as the source does, proved against pure functions. The whole-run theorems are lemmas about those functions.

| file | what it holds |
|---|---|
| `Domain.dfy`, `Wire.dfy` | the shared types; the frames streamed to clients |
| `TrackerSpec.dfy`, `CommandTracker.dfy` | the command tracker as functions on a map, and as the class that runs them |
| `TrackerHistory.dfy` | every tracked state read off the history; lifecycle order; completion and retention |
| `TrackerMarks.dfy`, `TrackerSweeps.dfy` | the marking race is harmless; extra subscribers are harmless |
| `OutgoingLink.dfy`, `RobotGateway.dfy` | one abstract FIFO link, the two implementations that refine it, reactors and registry |
| `RobotLink.dfy` | one link end to end: pump, wire, robot reader, robot writer, results |
| `CommandPath.dfy`, `EndToEnd.dfy`, `AtMostOnce.dfy`, `Registry.dfy`, `Dispatching.dfy`, `AllAnswered.dfy` | the whole system, its invariant, and what it promises |
| `ReachableRuns.dfy` | runs built action by action, and exactly when a given trouble can be reached |
| `Feed.dfy` | the operator feed: one SendCommand, one frame, one sample, each as a method over store, watchdog, tracker and gateway |
| `TrackStore.dfy` | latest-wins cells under two-level locking, and what non-atomic snapshots still guarantee |
| `LinkWatchdog.dfy` | lazy classification against an eager timer automaton |
| `Motion.dfy`, `FakeSource.dfy` | circular motion, re-basing, dead reckoning; the client's fake simulator |
| `AlertSpec.dfy`, `AlertHistory.dfy`, `AlertCommands.dfy`, `AlertFrames.dfy` | the alert engine against the frame history |
| `Audit.dfy` | the client's audit log against the tracker |
| `FitAll.dfy` | the operator canvas's Fit All |

## How the model is set up

- Time is an `int` of nanoseconds and coordinates are `real`. Cosine and sine are arbitrary functions; where a theorem
  needs them, it assumes only the quarter-turn identities.
- Clocks, the geofence test, the watchdog's answers at submission and the success of each stream write are parameters.
- Each robot's uplink message is a telemetry sample or a command result.
- The transport's contract is what gRPC's callback API promises: one read and one write outstanding, first in first out,
  `OnDone` last and once. A stream that has failed a write carries nothing more.
- Command ids are fresh within a run. Where a statement needs distinct targets in a command, it says so.

## Where the code and its documentation or a reader's expectation differ

The model follows the code, and the exact condition is proved.

- `src/core/command_tracker.hpp:53-54` says the robot refuses late commands. `src/robot_sim/main.cpp:155-172` never
  reads the expiry. Some run shows a target EXPIRED that its robot applied, at or after the expiry, if and only if the
  target was not called lost at its first mention, robots do not refuse the payload, and the tracker keeps finished
  commands at all: `ReachableRuns.ExpiredMayHaveRunLate`.
- The watchdog is asked once for each mention of a target, and only the first answer is kept. Some run shows a target
  ROBOT_OFFLINE that its robot applied if and only if it was called lost at its first mention, not lost at a later one,
  and robots do not refuse the payload: `ReachableRuns.OfflineMayHaveRun`. It takes a command that lists a robot twice.
- A command that gives theta does not re-base the start time. The phase becomes the commanded one if and only if the
  commanded speed is zero or no time has passed since the last re-basing: `Motion.ThetaCommandPhase`.
- The fake simulator keeps no start time. After a command that gives theta it and the robot agree if and only if the robot
  was never re-based or is told to stand still: `Motion.FakeSimulatorOnTheta`.
- The fake simulator skips only a non-positive radius, while a robot refuses the whole command. They agree on such a
  command if and only if it changes nothing else: `Motion.FakeSimulatorOnRefusal`.
- Closing a link erases the registry key it registered under. If another link of the same robot is open, or one link
  closes before its first message, a live link can be lost: `RegistrySafety.UnregisterReaches` has the exact condition,
  and `ReachableRuns.OverlappingLinkIsLost` a run in which it happens, for every robot.
- The alert key `command:robot` identifies a target among colon-free robots if and only if the robot id itself has no
  colon: `AlertCommands.KeyIdentifiesIffColonFree`. Every failed target raises its one alert if and only if no other
  failed target used its key before: `AlertCommands.EachTargetAlertsIff`.
- More subscribers sweep more often. Every way of adding them is harmless at every moment if and only if no definite
  result finds its target open at or after the command's expiry, or the tracker keeps no finished commands:
  `TrackerSweeps.CrowdsAreHarmlessIff`. A late result for a target already settled changes nothing.
- Truncation to milliseconds never moves a threshold if and only if the threshold is positive:
  `LinkWatchdog.TruncationMovesNoPositiveThreshold`.
- After a failed write a later enqueue starts another write of the same command: `OutgoingLink.FailedWriteRestarts`.

## Model

| member | source | states |
|---|---|---|
| EndToEnd.FramesAreTrue | src/c2_server/operator_feed_service.cpp:154-219 | in every reachable state, every frame ever shown is true: APPLIED means that robot ran the command's payload with success, REJECTED that it refused it, SENT that a link of that robot accepted it, ROBOT_OFFLINE, when the watchdog's answers for it agree, that no link of it ever did |
| EndToEnd.OfflineNeverHanded | src/core/command_tracker.cpp:39-45 | a target shown ROBOT_OFFLINE was never handed to its robot, if it is listed once or the answers for it agree |
| ReachableRuns.ExpiredMayHaveRunLate | src/robot_sim/main.cpp:155-172 | for every command, answers and robot: some run shows the target EXPIRED although the robot applied it at or after its expiry, if and only if it was not lost at its first mention, its payload is not refused, and the retention window is positive |
| ReachableRuns.OfflineMayHaveRun | src/core/command_tracker.cpp:39-54 | for every command, answers and robot: some run shows the target ROBOT_OFFLINE although the robot applied it, if and only if it was lost at its first mention, not lost at a later one, and its payload is not refused |
| ReachableRuns.OverlappingLinkIsLost | src/core/grpc_robot_callback_gateway.cpp:47-55 | for every robot some run ends with an open, registered link of it that no command reaches |
| ReachableRuns.ShownOfSubmission | src/core/command_tracker.cpp:39-46 | a frame shows a command's own targets and payload, and ROBOT_OFFLINE exactly for those lost at their first mention |
| AllAnswered.QuietLinkShowsOutcome | src/core/command_tracker.cpp:75-91 | once a link is quiet, every command it accepted that is still tracked, with no sweep yet at or after its expiry, shows APPLIED if and only if robots do not refuse its payload, else REJECTED, unless lost at its first mention |
| AllAnswered.ToldAt | src/c2_server/main.cpp:34-36 | in every reachable state every result delivered is an event of the tracker, and no mark or report precedes its command's submission |
| ReachableRuns.OutcomeIsReached | src/c2_server/operator_feed_service.cpp:188-219 | nothing is in the way: for every command, answers and target handed to its robot some run shows exactly the outcome its payload calls for |
| ReachableRuns.SendersAreNeverStuck | src/c2_server/operator_feed_service.cpp:210-214 | in every reachable state a sending thread can take its next step |
| Dispatching.HandedIsMarked | src/c2_server/operator_feed_service.cpp:210-214 | in every reachable state a command handed to its robot has been marked sent, or its thread holds exactly that mark |
| Dispatching.HandedIsNotPending | src/core/command_tracker.cpp:63-73 | so a tracked target handed to its robot, with no mark outstanding, is SENT or settled, never PENDING |
| Dispatching.DispatchHandsOver | src/core/grpc_robot_callback_gateway.cpp:30-40 | a dispatch hands exactly the next command to exactly the link registered for its robot and sets its mark, or, if none is registered, neither |
| Dispatching.FanOutAccountedFor | src/c2_server/operator_feed_service.cpp:206-214 | at every later state some first part of a submission's fan-out has been dispatched, one command at a time in order, and exactly the rest waits |
| Dispatching.FanOutInOrder | src/core/command_tracker.cpp:39-54 | each mention not called lost has its command at its own place in the fan-out |
| Dispatching.AcceptedIsSubmitted | src/core/command_tracker.cpp:47-53 | every command a link accepts is for its own robot and carries the operator's id, timestamp, expiry and payload |
| Feed.OperatorFeed.SendCommand | src/c2_server/operator_feed_service.cpp:188-219 | one call alone: submitted with the watchdog's answers, each command whose robot is registered goes to that reactor in order and is marked |
| Feed.OperatorFeed.NextFrame | src/c2_server/operator_feed_service.cpp:162-177 | one frame: every stored robot once with its latest sample and the watchdog's verdict, every command kept by a sweep |
| Feed.OperatorFeed.OnTelemetry | src/c2_server/main.cpp:27-30 | the store keeps the latest sample and the watchdog hears the robot, even if the sample is old |
| Feed.CommandStatuses | src/c2_server/operator_feed_service.cpp:100-114 | each command's statuses list its targets once, with state and detail |
| Feed.RobotStates | src/c2_server/operator_feed_service.cpp:64-79 | each sample with the status and age the watchdog gives its robot |
| Feed.ListShowsCommands | src/c2_server/operator_feed_service.cpp:176-177 | a frame made from a snapshot shows exactly what is tracked |
| RegistrySafety.EntriesComeAndGo | src/core/grpc_robot_callback_gateway.cpp:47-55 | an entry appears exactly by registering under a free id, never moves, and disappears exactly when a link of that id leaves |
| EndToEnd.RejectedChangesNothing | src/robot_sim/main.cpp:101-106 | a processing that refused left the motion exactly as it was, and refused because of the radius |
| EndToEnd.AuditIsTrue | gui/react-spike/web/src/useCommandAudit.ts:37-62 | the client's audit entry for a command carries the same promise about what each robot did |
| EndToEnd.RobotPhaseIsIntegral | src/robot_sim/main.cpp:88-123 | in every reachable state a robot's phase is its initial theta plus its angular rate integrated over what it has processed, and its radius stays positive |
| EndToEnd.RobotParametersAreLastGiven | src/robot_sim/main.cpp:101-123 | in every reachable state a robot's speed, radius and centre are those of the last command it processed that gives them and was not refused, and every theta it accepted became its theta0 |
| EndToEnd.BackedMeansDid | src/robot_sim/main.cpp:161-172 | every result the server ever handles reports a real run of applyParams on the very payload submitted |
| CommandPath.InvAt | src/c2_server/operator_feed_service.cpp:188-219 | the system invariant holds in every state of every run from the empty server |
| CommandPath.StepKeepsInv | src/core/grpc_robot_reactor.cpp:16-73 | every action of the system keeps the invariant: links, registry, routing, marks, frames, submissions, tracker |
| AtMostOnce.FanOutMultiplicity | src/core/command_tracker.cpp:39-54 | a target is dispatched exactly once for each mention at which it was not called lost |
| AtMostOnce.ProcessedAtMostOnce | src/c2_server/operator_feed_service.cpp:210-214 | when no command lists a target twice, no robot processes a command twice, on one link or on two |
| AtMostOnce.VerdictIsTheOnlyOne | src/core/command_tracker.cpp:75-91 | a target shown APPLIED or REJECTED was processed by its robot exactly once, with that verdict |
| RegistrySafety.EntriesAreLive | src/core/grpc_robot_callback_gateway.cpp:30-55 | over any overlap of connects, sends and closes, every entry points to a link not deleted whose own robot id is the key |
| RegistrySafety.WithoutOverlapAllReached | src/core/grpc_robot_callback_gateway.cpp:47-55 | while no two links of a robot are open at once and no robot's id is empty, every live registered link is the one its commands reach |
| RegistrySafety.UnregisterReaches | src/core/grpc_robot_reactor.cpp:56-59 | when a link leaves the registry, another live link stays reached if and only if it was reached and its robot's id is not the key erased |
| RobotLink.LinkStep | src/robot_sim/main.cpp:155-218 | every step of a link keeps its invariant: commands down, robot log, results up, greeting |
| RobotLink.DeliveredIsPrefixOfVerdicts | src/robot_sim/main.cpp:155-218 | whatever fails, commands processed are a prefix of those accepted, and results delivered a prefix of the verdicts on them, APPLIED exactly when not refused |
| RobotLink.QuietLinkHasAnsweredAll | src/robot_sim/main.cpp:206-218 | when nothing failed and nothing is under way, every accepted command has been answered once, in order |
| RobotLink.UpDeliver | src/core/grpc_robot_reactor.cpp:36-42 | delivering the oldest unread result delivers the verdict on the next command not yet answered |
| OutgoingLink.PumpRunsKeepInv | src/core/grpc_robot_reactor.cpp:16-20 | over any interleaving, written then queued is what was enqueued, in order; at most one write is out, of the queue's head; none is missing before a failure |
| OutgoingLink.PumpStepKeepsInv | src/core/grpc_robot_reactor.cpp:16-73 | a completion finds a queue head to pop; every enqueue and completion keeps the pump's invariant and is one step of the abstract link |
| OutgoingLink.CompletionsDrain | src/core/grpc_robot_reactor.cpp:45-54 | no lost wake-up: n successful completions alone write the n oldest queued commands |
| OutgoingLink.FailedWriteRestarts | src/core/grpc_robot_reactor.cpp:65-73 | after a failed write the pump is idle, and the next enqueue starts a write of the command that failed |
| OutgoingLink.PumpRefinesFifo | src/core/grpc_robot_reactor.cpp:45-73 | the reactor's pump refines the abstract FIFO link |
| OutgoingLink.WriterRefinesFifo | src/core/grpc_robot_gateway.cpp:89-113 | the writer thread refines the same link, under any interleaving of sends, stops and failures |
| OutgoingLink.WriterStepKeepsInv | src/core/grpc_robot_gateway.cpp:94-109 | written, taken and queued are what was accepted, in order; every step is one of the abstract link's; the writer stops only when asked or after a failed write, and then writes nothing more |
| OutgoingLink.WriterDrains | src/core/grpc_robot_gateway.cpp:94-109 | no lost wake-up: a writer not asked to stop writes everything accepted in one pass |
| OutgoingLink.ReleaseMeansDrained | src/core/grpc_robot_gateway.cpp:102-109 | when the writer gives the mutex back it has written everything accepted |
| RobotGateway.Reactor.Enqueue | src/core/grpc_robot_reactor.cpp:16-20 | the fields become those of the pump after an enqueue; identity is untouched |
| RobotGateway.Reactor.PumpQueue | src/core/grpc_robot_reactor.cpp:65-73 | a write of the queue's head is started unless one is out or nothing is queued |
| RobotGateway.Reactor.OnWriteDone | src/core/grpc_robot_reactor.cpp:45-54 | a completion always has a queue head to pop, and the fields become those of the pump after it |
| RobotGateway.Reactor.OnReadDone | src/core/grpc_robot_reactor.cpp:22-43 | the first message registers the reactor under its telemetry's id without displacing an entry; later ones change nothing; a failed read finishes |
| RobotGateway.Reactor.OnDone | src/core/grpc_robot_reactor.cpp:56-59 | the last callback erases the key, deletes the object, and leaves no entry pointing to it |
| RobotGateway.Gateway.SendCommand | src/core/grpc_robot_callback_gateway.cpp:30-40 | true exactly when the robot is registered; then its reactor, which is not deleted, and no other, takes the command |
| RobotGateway.Gateway.Register | src/core/grpc_robot_callback_gateway.cpp:47-50 | an entry already there is kept |
| RobotGateway.Gateway.Unregister | src/core/grpc_robot_callback_gateway.cpp:52-55 | the key is erased, whichever reactor it points to |
| RobotGateway.RobotLinkState.Push | src/core/grpc_robot_gateway.cpp:29-38 | the command joins the end of the shared queue |
| RobotGateway.RobotLinkState.Drain | src/core/grpc_robot_gateway.cpp:102-108 | the queue is written in order up to the first refused write, and only the refused command is lost |
| CommandTracking.CommandTracker.OnCommandSubmitted | src/core/command_tracker.cpp:29-61 | the map gains the command unless its id is there; a target has the state its first mention gave it; the commands returned are one per mention not called lost, in order |
| CommandTracking.CommandTracker.OnCommandSent | src/core/command_tracker.cpp:63-73 | exactly a PENDING target becomes SENT |
| CommandTracking.CommandTracker.OnCommandResult | src/core/command_tracker.cpp:75-91 | exactly an open target takes the verdict; unknown, late and unspecified results are handled as the code does |
| CommandTracking.CommandTracker.SweepExpired | src/core/command_tracker.cpp:93-119 | due targets expire, then commands past the retention window are dropped, in the two loops of the source |
| CommandTracking.CommandTracker.ExpireDue | src/core/command_tracker.cpp:96-108 | every command is aged to the time of the sweep, and none is lost |
| CommandTracking.ExpireEach | src/core/command_tracker.cpp:100-106 | exactly the PENDING and SENT targets become EXPIRED |
| CommandTracking.CommandTracker.DropRetired | src/core/command_tracker.cpp:111-118 | exactly the commands complete for the retention window are dropped, the others untouched |
| CommandTracking.CommandTracker.Snapshot | src/core/command_tracker.cpp:121-129 | every tracked command is listed exactly once |
| TrackerHistory.TargetsExplainedByHistory | src/core/command_tracker.cpp:29-119 | after any run, a target's state and detail are those of the first event that settled it, else SENT if marked, else PENDING; a target lost at its first mention stays ROBOT_OFFLINE |
| TrackerHistory.TargetsOnlyAdvance | src/core/command_tracker.hpp:42-58 | while tracked, a target only advances along the lifecycle, and terminal state and detail are frozen |
| TrackerHistory.RunKeepsWellFormed | src/core/command_tracker.cpp:15-22 | in every reachable state a command is stamped complete exactly when all its targets are terminal |
| TrackerHistory.CompletionIsTheLastDecision | src/core/command_tracker.cpp:15-22 | the stamp is the time of the one event before which some target was open and from which on all are terminal |
| TrackerHistory.RetentionIsExact | src/core/command_tracker.cpp:110-118 | a completed command stays, frozen in every field, exactly until the first sweep at or after its completion plus the window |
| TrackerHistory.AfterSweep | src/core/command_tracker.cpp:93-119 | after a sweep every tracked command is unfinished with a later expiry, or completed within the window |
| TrackerHistory.NothingOutlivesTwoSweeps | src/core/command_tracker.cpp:93-119 | no command survives a sweep at its expiry and one a window later: growth is bounded |
| TrackerMarks.MarkCommutes | src/core/command_tracker.cpp:63-119 | marking sent commutes with results, sweeps, other marks and other submissions |
| TrackerMarks.MarkBeforeSubmissionIsLost | src/core/command_tracker.cpp:63-67 | it does not commute with the submission that creates the entry |
| TrackerMarks.MarkingRaceIsHarmless | src/c2_server/operator_feed_service.cpp:206-214 | every run ends with the tracker contents of the run in which each dispatched target is marked immediately after submission |
| TrackerMarks.MarkedAtOnceReorders | src/c2_server/operator_feed_service.cpp:210-214 | that run has the same events, each as often |
| TrackerMarks.MarkedAtOnceIsImmediate | src/c2_server/operator_feed_service.cpp:210-214 | in it nothing but marks of the same command stands between a submission and its marks |
| TrackerSweeps.CrowdsAreHarmlessIff | src/c2_server/operator_feed_service.cpp:162-184 | for every run: every crowd of extra sweeps is harmless at every moment if and only if no definite report finds its target open at or after the expiry, or there is no retention window |
| TrackerSweeps.ExtraSubscribersAreHarmless | src/core/command_tracker.cpp:93-119 | under that condition extra sweeps keep a subset of the commands, with identical target states and details on each |
| TrackerSweeps.LateReportSeesTheCrowd | src/core/command_tracker.cpp:96-108 | for every report that finds its target open at or after the expiry, applied or rejected, one extra sweep turns the verdict into EXPIRED |
| TrackerSweeps.CrowdWithoutWindow | src/core/command_tracker.cpp:110-118 | without a retention window, what the crowded tracker still holds it holds unchanged |
| TrackerHistory.WithoutWindowNoneExpired | src/core/command_tracker.cpp:93-119 | without a retention window no target is ever seen EXPIRED |
| Audit.SameOutcomes | gui/react-spike/web/src/useCommandAudit.ts:28-32 | true exactly when the two records are equal |
| Audit.AuditLog.Record | gui/react-spike/web/src/useCommandAudit.ts:37-43 | a new entry, all PENDING, goes first, and only the newest hundred are kept |
| Audit.AuditLog.Merge | gui/react-spike/web/src/useCommandAudit.ts:46-62 | every entry takes the states its command shows in the frame, and keeps its own when the command is not listed |
| Audit.MergeOne | gui/react-spike/web/src/useCommandAudit.ts:51-59 | the merged entry, and whether it differs |
| Audit.LogIsBounded | gui/react-spike/web/src/useCommandAudit.ts:40-42 | the log holds every entry issued, up to the newest hundred |
| Audit.ListingIsLast | gui/react-spike/web/src/useCommandAudit.ts:48-53 | the listing used is the last of that id, and none exactly if none has it |
| Audit.EntryIsRetained | gui/react-spike/web/src/useCommandAudit.ts:40-42 | while fewer than a hundred newer entries were issued, an entry is in the log, at its place, having followed every frame |
| Audit.MergeShowsTracker | gui/react-spike/web/src/useCommandAudit.ts:48-58 | an entry merged with a frame of the tracker shows exactly the tracker's states of its command, if listed |
| Audit.EntryShowsLastListing | gui/react-spike/web/src/useCommandAudit.ts:46-62 | an entry shows the tracker's states in the last frame that listed its command, or all PENDING if none did |
| Audit.LogShowsLastListing | gui/react-spike/web/src/useCommandAudit.ts:34-65 | in the client's actual log, whatever else it records, an entry younger than a hundred others is at its place and shows the last frame that listed its command |
| Audit.EntryIsFinal | gui/react-spike/web/src/useCommandAudit.ts:53 | a client that took one frame inside the retention window logs the command's final outcome |
| Audit.FrozenOnceComplete | src/core/command_tracker.cpp:82-90 | once complete, a command is the same whenever it is still tracked |
| TrackStore.Track.Offer | src/core/track_store.cpp:19-25 | the cell takes a sample exactly when its sequence number is greater |
| TrackStore.Store.FindOrCreate | src/core/track_store.cpp:7-17 | a new robot's cell is created with its first sample; a known robot's cell is found unchanged |
| TrackStore.Store.Upsert | src/core/track_store.cpp:5-26 | latest wins, and true exactly when the cell was created or raised |
| TrackStore.Store.Snapshot | src/core/track_store.cpp:28-47 | every robot once, with its latest sample |
| TrackStoreConcurrent.StepKeepsInv | src/core/track_store.cpp:5-47 | every critical region keeps the store's invariant, and no cell goes back |
| TrackStoreConcurrent.InvAt | src/core/track_store.cpp:5-47 | the invariant holds in every state of every run from the empty store |
| TrackStoreConcurrent.CellsHoldTheLatest | src/core/track_store.cpp:5-26 | for any interleaving, a cell holds the first commit of its robot's greatest sequence number, and each upsert's answer is explained by the commits before it |
| TrackStoreConcurrent.CellsNeverGoBack | src/core/track_store.cpp:19-25 | between any two states of a run no robot is lost and none goes back |
| TrackStoreConcurrent.SnapshotLiesBetween | src/core/track_store.cpp:28-47 | a snapshot lists exactly the robots known when it copied the map, each once, with a committed sample between its values at the start and at the end |
| TrackStoreConcurrent.FramesNeverGoBack | src/c2_server/operator_feed_service.cpp:162-167 | of any two snapshots a subscriber is given, the later lists every robot of the earlier, at the same or a later sample |
| TrackStoreConcurrent.EverySampleIsCommitted | src/core/track_store.cpp:5-26 | every sample handed to upsert is committed, or its thread is still between its two regions with it |
| TrackStoreConcurrent.NoneIsStuck | src/core/track_store.cpp:5-47 | an upsert or a snapshot under way can always take its next step |
| LinkWatchdog.Watchdog.Record | src/core/link_watchdog.cpp:9-13 | the robot's last receive time is overwritten |
| LinkWatchdog.Watchdog.Classify | src/core/link_watchdog.cpp:15-34 | the classification function of the map and the clock; unknown robots are LOST with age -1 |
| LinkWatchdog.TruncationMovesNoPositiveThreshold | src/core/link_watchdog.cpp:23-32 | comparing truncated milliseconds is exact for every age if and only if the threshold is positive |
| LinkWatchdog.AgeIsTimeSinceLastHeard | src/core/link_watchdog.cpp:23-33 | after any run the age reported is the whole milliseconds since the robot was last heard, the fraction dropped toward zero |
| LinkWatchdog.NeverHeardIsLost | src/core/link_watchdog.cpp:18-21 | a robot never heard is LOST with age -1 |
| LinkWatchdog.BandsAreHalfOpen | src/core/link_watchdog.cpp:25-32 | reaching a threshold enters the next state, in nanoseconds |
| LinkWatchdog.LazyEqualsEager | src/core/link_watchdog.cpp:9-34 | after any run in nondecreasing time the classification is the state an automaton with two timers would hold |
| LinkWatchdog.StatusOnlyDegrades | src/core/link_watchdog.cpp:15-34 | without a new record the status only gets worse, whatever other robots send |
| Motion.RobotMotion.Apply | src/robot_sim/main.cpp:101-123 | the new state and the verdict; a refusal changes nothing |
| Motion.ApplyKeepsPhase | src/robot_sim/main.cpp:107-114 | a command without theta never makes the phase jump, and turns at the new rate from then on |
| Motion.PhaseIsIntegral | src/robot_sim/main.cpp:88-123 | over any run of theta-free commands the phase is the initial theta plus the sum of V/R times each segment |
| Motion.ThetaCommandPhase | src/robot_sim/main.cpp:107-121 | the phase after a command with theta, and exactly when it is the theta commanded |
| Motion.ParametersAreLastGiven | src/robot_sim/main.cpp:116-120 | for any run, with theta or without: speed, radius and centre are each the value given by the last command that gives it and is not refused, else the initial value |
| Motion.ThetaIsSet | src/robot_sim/main.cpp:120 | a command that gives theta sets theta0 to it unless refused, and does not re-base |
| Motion.PositionAfterRun | src/robot_sim/main.cpp:88-96 | after any theta-free run the robot is on the circle last given, at its initial theta plus the integrated rate, heading a quarter turn ahead |
| Motion.FakeOrbiter.Apply | gui/react-spike/bridge/src/fakeSource.ts:191-205 | the fake robot's new state, in the source's order of assignments |
| Motion.FakeSimulatorAgrees | gui/react-spike/bridge/src/fakeSource.ts:126-128 | the two re-basing schemes give the same circle, rate and phase at all times |
| Motion.FakeSimulatorOnRefusal | gui/react-spike/bridge/src/fakeSource.ts:195-199 | on a refused radius they agree exactly when the command changes nothing else |
| Motion.FakeSimulatorOnTheta | gui/react-spike/bridge/src/fakeSource.ts:198-204 | after a command with theta they agree exactly when the robot was never re-based or is told to stand still |
| Motion.CenterIsRecovered | gui/react-spike/web/src/MapView.tsx:446-450 | the true centre is recovered from a telemetry sample |
| Motion.DeadReckoningIsExact | gui/react-spike/web/src/MapView.tsx:452-460 | the ghost is where the robot itself would be at that later time |
| Motion.GhostStandsStill | gui/react-spike/web/src/MapView.tsx:455-460 | without a positive radius the ghost stays at the last sample, whatever its age |
| FakeSource.FakeSource.AdvanceCommands | gui/react-spike/bridge/src/fakeSource.ts:164-186 | one tick's new commands, and the robots after everything due was applied in order |
| FakeSource.FakeSource.AdvanceTargets | gui/react-spike/bridge/src/fakeSource.ts:166-182 | each target one tick later, the parameters due applied in order, and whether all are settled |
| FakeSource.FakeSource.SendCommand | gui/react-spike/bridge/src/fakeSource.ts:207-222 | unknown and frozen targets are offline at once, the others PENDING for one tick |
| FakeSource.FakeRunFromEvents | gui/react-spike/bridge/src/fakeSource.ts:164-222 | read off the events alone: every command has been applied once for each mention of a robot that exists and is not frozen, three ticks after issue, in order of issue, and nothing else; every frame lists it for its time, ROBOT_OFFLINE exactly for unknown and frozen robots, else PENDING, SENT, APPLIED |
| FakeSource.AppliedIsReceived | gui/react-spike/bridge/src/fakeSource.ts:164-182 | a robot that takes commands has applied exactly those that mention it, one for each mention, at least three ticks old; another has applied none |
| FakeSource.FakeRunByAge | gui/react-spike/bridge/src/fakeSource.ts:164-186 | what is listed, and what has been applied, depends only on each command as issued and its age |
| FakeSource.FakeRobotsMoveLikeRobots | gui/react-spike/bridge/src/fakeSource.ts:126-205 | each fake robot that is not frozen moves, and is shown, at all times, as a real one that received every command that mentions it three ticks after issue |
| FakeSource.FrozenRobotsHoldStill | gui/react-spike/bridge/src/fakeSource.ts:131-134 | a frozen robot is never touched by a command and is shown where it always was |
| AlertEngines.AlertEngine.Ingest | gui/react-spike/web/src/alertEngine.ts:40-89 | one frame's alerts and the new memory are those of its items taken in order |
| AlertEngines.AlertEngine.Make | gui/react-spike/web/src/alertEngine.ts:100-102 | an alert with the next id |
| AlertEngines.AlertEngine.IngestLink | gui/react-spike/web/src/alertEngine.ts:46-52 | the link part of one robot's sighting |
| AlertEngines.AlertEngine.IngestFence | gui/react-spike/web/src/alertEngine.ts:54-73 | the geofence part of one robot's sighting |
| AlertEngines.AlertEngine.IngestTarget | gui/react-spike/web/src/alertEngine.ts:79-84 | one target's status: an alert if it failed and was not seen failed before |
| AlertHistory.RobotAlertsAreHistory | gui/react-spike/web/src/alertEngine.ts:43-74 | per robot, link and geofence alerts are exactly those its sightings call for, with severity, time and message |
| AlertHistory.LinkAlertsAreTheDestutteredHistory | gui/react-spike/web/src/alertEngine.ts:46-52 | link alerts are the status history with repeats removed, after its first element, severity and message fixed by the new status |
| AlertHistory.GeofenceAlertsAlternate | gui/react-spike/web/src/alertEngine.ts:54-73 | geofence alerts strictly alternate from a breach, breaches exceed re-entries by one exactly when last seen outside, and each says what it is, a first sighting outside included |
| AlertHistory.LinkNoteReads | gui/react-spike/web/src/alertEngine.ts:91-98 | a change of status is told by the new status alone, and nothing is told of an unspecified one |
| AlertHistory.FenceNoteReads | gui/react-spike/web/src/alertEngine.ts:60-71 | a change of side is told, the first sighting being compared with inside |
| AlertHistory.TextTells | gui/react-spike/web/src/alertEngine.ts:46-101 | two alerts of one robot read the same if and only if they say the same |
| AlertHistory.AlertsAreRaised | gui/react-spike/web/src/alertEngine.ts:29-89 | a command alert only ever reports one of the three failures |
| AlertHistory.AlertIdsAreUnique | gui/react-spike/web/src/alertEngine.ts:100-102 | no two alerts of a run share an id |
| AlertCommands.KeyIsInjective | gui/react-spike/web/src/alertEngine.ts:80-82 | the key determines command and robot when robot ids have no colon |
| AlertCommands.KeyIdentifiesIffColonFree | gui/react-spike/web/src/alertEngine.ts:80-82 | and for a given robot only then |
| AlertCommands.FirstFailuresAreFirst | gui/react-spike/web/src/alertEngine.ts:76-86 | the first failures of a run, by target or by key, are each failure once, at its earliest failing frame |
| AlertCommands.FailuresAlertOnce | gui/react-spike/web/src/alertEngine.ts:76-86 | the command alerts of any run are exactly those of its first failures by key |
| AlertCommands.EachTargetAlertsIff | gui/react-spike/web/src/alertEngine.ts:76-86 | every failed target raises exactly one alert, at its first failing frame, if and only if none fails under a key another has used |
| AlertCommands.ColonFreeNoneShadowed | gui/react-spike/web/src/alertEngine.ts:80-82 | none does when robot ids have no colon |
| AlertFrames.FramesRaiseRobotAlerts | gui/react-spike/web/src/alertEngine.ts:43-74 | for any run of frames and any robot: link and geofence alerts are exactly those its entries in the frames call for, in order, at the frames' times |
| AlertFrames.FramesRaiseCommandAlerts | gui/react-spike/web/src/alertEngine.ts:76-86 | for any run of frames: the command alerts are exactly one warning for each key of a target the frames show failed, with what it showed and when, at its first showing |
| AlertFrames.ShownByFrames | gui/react-spike/web/src/alertEngine.ts:77-78 | a status is among those shown exactly if some frame shows it for some command |
| AlertFrames.FrameInOrder | gui/react-spike/web/src/alertEngine.ts:43-86 | a frame is taken robots first, in order, then every target of every command, in order |
| AlertFrames.AlertsInOrder | gui/react-spike/web/src/alertEngine.ts:40-89 | the whole output in order: what each robot entry, link before fence, and each target status calls for, given those before it |
| AlertFrames.FramesFlatten | gui/react-spike/web/src/alertEngine.ts:40-89 | feeding frames one by one raises the alerts of their items taken in that order |
| FitAll.MainViewModel.FitAll | gui/operator_gui/ViewModels/MainViewModel.cs:305-342 | every robot is drawn where the new view puts it, within 0.45 of the viewport's width and height of its centre |
| FitAll.MainViewModel.Redraw | gui/operator_gui/ViewModels/MainViewModel.cs:337-341 | every robot is drawn where the current view puts it |
| FitAll.BoundingBox | gui/operator_gui/ViewModels/MainViewModel.cs:313-324 | the loop finds the least box: it contains every robot and each side passes through one |
| FitAll.FitIsLargest | gui/operator_gui/ViewModels/MainViewModel.cs:326-330 | a scale fits nine tenths of the viewport both ways, a side counting at least 1, if and only if it is at most the one chosen |
| FitAll.CanvasIsScaledMap | gui/operator_gui/ViewModels/MainViewModel.cs:268-273 | east is right, north is up, distances are scaled, and the view's centre is the middle of the viewport |
| FitAll.FitIsTight | gui/operator_gui/ViewModels/MainViewModel.cs:326-333 | two robots are drawn exactly nine tenths of the viewport apart, so no larger scale would do |

## Left out

- gRPC, protobuf, WebSocket and thread scheduling: only the transport contract above is used.
- Field copying and enum mapping between wire and domain types, the link status apart; payloads other than SetParameters, which SendCommand
  answers with an error before the tracker sees them; the unspecified command state, which no target ever has.
- Reuse of a command id, and a robot process restarting under the same id: excluded, since a repeated id is dispatched
  again but keeps the old entry.
- Floating-point rounding and NaN. A robot whose radius is zero at start divides by zero: excluded.
- FramesAreTrue: says nothing of PENDING and EXPIRED targets, because nothing about the robot follows: a result can
  arrive before the mark, and an expired command can still be applied.
- A frame is not an atomic cut: telemetry, health and commands of one frame are read in separate regions, and only the
  statements above relate them. A robot can appear before its first watchdog record.
- The content of the telemetry a robot sends over its link: in the step system it is any sample with the robot's own id.
- `Feed` runs one call at a time; what happens when calls interleave is the step system's subject.
- The registry and the read loop of the writer-thread gateway; only its queue and its writer are modelled.
- Trails, markers, colours, dialogs and every other drawing; fence geometry and map projection; React state handling
  beyond the merge; reconnect, probes, command lines and build files.
- The fake simulator's scripted link-loss loop, its telemetry frames, and the ids it makes up for commands without one.
