# Verified model of the ALPR-LiDAR gate automation system

A Dafny model of the parts of the system that decide: the gate that moves, the event
pipeline that reports, the framing that carries messages, and the policy that lets
vehicles in. Each file is one module.

| file | models |
|---|---|
| `Words.dfy` | 32-bit machine words |
| `StateMachine.dfy`, `CommandTracker.dfy` | the firmware's transition table and its one-in-flight command tracker |
| `VirtualGate.dfy` | the simulated gate: both of the above, a motor, a watchdog, an auto-close timer, reverse-on-beam |
| `GateSafety.dfy`, `GateAcks.dfy` | what every run of the virtual gate keeps: safety, timers, acknowledgements, progress |
| `GateLaws.dfy` | what each call does to a gate and which acknowledgement it records, in what can be seen of it |
| `GateController.dfy` | the firmware's queue-pumped controller, and its refinement of the virtual gate |
| `Framing.dfy`, `ControlStream.dfy` | the gRPC Length-Prefixed-Message codec, the receive loop and the send chunker |
| `Broadcaster.dfy`, `EventRoutes.dfy` | the event broadcaster, and every interleaving of its steps |
| `EventResume.dfy` | the dashboard's event cache and its reconnect loop, end to end with the broadcaster |
| `Allowlist.dfy`, `KeysetWalk.dfy` | plate normalisation, policy, the store, and paging through it |
| `Fusion.dfy`, `AuthRuns.dfy`, `AuthRaces.dfy` | the verdict ladder, the handlers that decide and command, and their races |
| `Debounce.dfy` | the debouncer of the safety beam and the limit switches |
| `Ctc.dfy` | greedy CTC decoding |

Code that updates things in place is a class or a method with loops; its contract ties
it to a function on values, and the lemmas are about that function over all inputs and
all runs. `dafny verify dfyconfig.toml` checks the whole project.

## What the proofs found

- A limit switch reports edges only. A gate told to drive into a limit that is already
  active gets no hit event: `VirtualGate` arrives at once, `GateController` keeps the
  relay on until its watchdog faults. The two agree after a call exactly when time does
  not pass in that situation (`StepAgreesIff`); stop, then close, right after an open
  reaches it (`PinnedIsReachable`).
- The motor watchdog can trip a healthy gate exactly when it is shorter than the stroke
  (`NeverTimesOutIff`).
- The deadline comparison is a signed 32-bit difference, so a command counts as expired
  early exactly while more than 2^31 ms remain (`LongDeadlineExpiresEarly`). Runs report
  only deadlines that have passed exactly when the configured deadline is at most 2^31 ms
  (`DeadlineFailuresLateIff`); with a longer one the next tick fails the command before
  any time has passed (`EarlyDeadlineAck`).
- Resume cursors filter replay only. A live push ignores the cursor, so a subscriber is
  owed every matching event committed after it subscribed, whatever its cursor
  (`ExactlyOneRoute`).
- A reconnect resumes without a gap exactly when the ring still holds everything owed
  and the replay fits the subscriber's queue (`ReconnectExactIff`).
- The reconnect backoff doubles in 32 bits; it follows the capped doubling exactly when
  the cap is below 2^31 ms or the minimum is zero (`DoublesIff`).
- With handlers taken as single steps, no automatic open falls in a lockdown
  (`NoAutoOpenInLockdown`). Cut where their locks are released, one does exactly when the
  lockdown began after the submission behind it had read the override
  (`OpenInLockdownIff`), and that happens (`RaceExists`).
- The debounce sample count wraps in 32 bits; it spans the debounce time exactly when it
  does not wrap, or when one poll is enough (`SpansDebounceIff`); the longest time at two
  milliseconds a poll is cut to one (`LongestDebounceWraps`). The poll that sees a
  level change never commits it, so two polls are needed even when one is configured.

Where code and comments differ, the model follows the code:

- `normalize_plate` also strips underscores; its header does not list them
  (`NormalFormIff`).
- A zeroed local time is said to lift the time restriction; the code reads it as Sunday
  midnight (`ZeroClockIff`, `ZeroClockRefused`).
- `VirtualGate::clear_fault` also boots a gate that was never booted, as `Initializing`
  is all it checks.
- The controller's start-up comment says the input drivers begin inactive; their
  constructors begin at the level they read.

## Model

| member | source | states |
|---|---|---|
| `GateMachine.StateMachine.constructor` | firmware/components/gate_state_machine/src/state_machine.cpp:23 | a new machine is Initializing, without reason, beam clear |
| `GateMachine.StateMachine.Handle` | firmware/components/gate_state_machine/src/state_machine.cpp:66-249 | the nest of early returns moves, latches, stores its reason and emits exactly as the transition table says, for all eight states and eleven events |
| `GateMachine.StateMachine.HandleInState` | firmware/components/gate_state_machine/src/state_machine.cpp:128-249 | the events a state takes on its own, with the latch updated, act as the table says |
| `GateMachine.StateMachine.HandleStopped` | firmware/components/gate_state_machine/src/state_machine.cpp:196-238 | a stopped gate resumes either way, closing only past a clear beam, and otherwise stays |
| `GateMachine.StateMachine.Enter` | firmware/components/gate_state_machine/src/state_machine.cpp:66-249 | entering a state pushes its motor, LED and telemetry actions, in that order, without overflowing the action buffer |
| `GateMachine.StateMachine.BootClosed` | firmware/components/gate_state_machine/src/state_machine.cpp:27-37 | boot at the closed limit: Closed, motor stopped, reason cleared, latch kept |
| `GateMachine.StateMachine.BootOpen` | firmware/components/gate_state_machine/src/state_machine.cpp:39-49 | boot at the open limit: Open, motor stopped, reason cleared, latch kept |
| `GateMachine.StateMachine.BootUnknown` | firmware/components/gate_state_machine/src/state_machine.cpp:51-62 | boot between limits: Faulted with a limit-switch reason, latch kept |
| `GateMachine.EntryIsApt` | firmware/components/gate_state_machine/src/state_machine.cpp:66-249 | entering a state drives the motor its way or stops it, shows an indicator that stands for it and none that does not, and tells the server; finding the position again leaves motor and indicator alone |
| `CommandTracking.CString` | firmware/components/gate_rpc/src/command_tracker.cpp:17-19 | the text of a NUL-terminated buffer: the longest prefix without a NUL |
| `CommandTracking.CutIsPrefix` | firmware/components/gate_rpc/src/command_tracker.cpp:16-19 | a stored id is the given one up to its first NUL or 39 bytes, whichever comes first |
| `CommandTracking.CutKeepsThirtyNine` | firmware/components/gate_rpc/src/command_tracker.cpp:17-19 | an id without a NUL is kept whole up to 39 bytes, a longer one to its first 39 |
| `CommandTracking.ExpiredIffReached` | firmware/components/gate_rpc/src/command_tracker.cpp:58-64 | within half the clock's range the wrapping comparison says "expired" exactly when the true time has reached the deadline |
| `CommandTracking.CommandTracker.Arm` | firmware/components/gate_rpc/src/command_tracker.cpp:11-24 | arming supersedes a pending command with a failure for the old id, and stores the new id in its 40-byte buffer |
| `CommandTracking.CommandTracker.OnGateEvent` | firmware/components/gate_rpc/src/command_tracker.cpp:26-56 | which gate events resolve the pending command, as success, halt or beam rejection, and which leave it pending |
| `CommandTracking.CommandTracker.OnTick` | firmware/components/gate_rpc/src/command_tracker.cpp:58-64 | a pending command fails once its deadline compares as reached |
| `CommandTracking.CommandTracker.Resolve` | firmware/components/gate_rpc/src/command_tracker.cpp:66-74 | a verdict carries the stored id and disarms the tracker |
| `VirtualGates.VirtualGate.constructor` | simulation/src/virtual_gate.cpp:10-17 | a new gate is at position 0, motors off, un-booted |
| `VirtualGates.VirtualGate.BootAtClosed` | simulation/src/virtual_gate.cpp:19-23 | the gate after booting at its closed limit is the value `Do` gives |
| `VirtualGates.VirtualGate.IssueCommand` | simulation/src/virtual_gate.cpp:25-31 | the tracker is armed, with the 32-bit deadline, before the machine steps |
| `VirtualGates.VirtualGate.LocalOpen` | simulation/src/virtual_gate.cpp:33-36 | an untracked open has the effect `Do` gives on the whole gate |
| `VirtualGates.VirtualGate.LocalClose` | simulation/src/virtual_gate.cpp:38-41 | an untracked close has the effect `Do` gives on the whole gate |
| `VirtualGates.VirtualGate.OperatorStops` | simulation/src/virtual_gate.cpp:43-46 | an operator stop has the effect `Do` gives on the whole gate |
| `VirtualGates.VirtualGate.ClearsFault` | simulation/src/virtual_gate.cpp:48-54 | a cleared fault re-reads the position before anything else can move |
| `VirtualGates.VirtualGate.ResetVolatile` | simulation/src/virtual_gate.cpp:57-71 | a reboot keeps position, tracker and beam, re-latches a blocked beam, drops the rest |
| `VirtualGates.VirtualGate.Reboots` | simulation/src/virtual_gate.cpp:56-73 | after the volatile state is lost the position decides the state |
| `VirtualGates.VirtualGate.TripBeam` | simulation/src/virtual_gate.cpp:75-79 | a broken beam is remembered and handled, with any reversal included |
| `VirtualGates.VirtualGate.ClearBeam` | simulation/src/virtual_gate.cpp:81-85 | a restored beam is remembered and handled |
| `VirtualGates.VirtualGate.AdvanceBy` | simulation/src/virtual_gate.cpp:87-114 | a tick is deadline check, travel, watchdog, auto-close, in that order, each seeing what the one before did |
| `VirtualGates.VirtualGate.TickClock` | simulation/src/virtual_gate.cpp:89-90 | time passes and the tracker sees it modulo 2^32 |
| `VirtualGates.VirtualGate.Move` | simulation/src/virtual_gate.cpp:92-104 | the motor moves the position a millisecond per millisecond and stops it at the limit, which reports a hit |
| `VirtualGates.VirtualGate.CheckWatchdog` | simulation/src/virtual_gate.cpp:106-109 | a due watchdog is disarmed, then fires |
| `VirtualGates.VirtualGate.CheckAutoClose` | simulation/src/virtual_gate.cpp:110-113 | a due auto-close is disarmed, then commands a close |
| `VirtualGates.VirtualGate.DrainAcks` | simulation/src/virtual_gate.cpp:136-141 | draining returns every acknowledgement and leaves none |
| `VirtualGates.VirtualGate.StepLocked` | simulation/src/virtual_gate.cpp:156-158 | the machine handles the event and its outputs are carried out |
| `VirtualGates.VirtualGate.ApplyLocked` | simulation/src/virtual_gate.cpp:161-203 | motors, timers, tracker, then policies; terminates although a beam stop re-enters the stepper |
| `VirtualGates.VirtualGate.Execute` | simulation/src/virtual_gate.cpp:162-179 | the loop over the emitted actions leaves the motors as the entered state demands |
| `VirtualGates.VirtualGate.ManageTimers` | simulation/src/virtual_gate.cpp:181-188 | each transition arms or disarms both deadlines by the entered state |
| `VirtualGates.VirtualGate.NotifyTracker` | simulation/src/virtual_gate.cpp:190-192 | the tracker hears transitions and reasoned rejections, and its verdict is recorded |
| `VirtualGates.VirtualGate.ResolvePosition` | simulation/src/virtual_gate.cpp:205-213 | at or past a limit the gate boots there, between them it faults |
| `VirtualGates.VirtualGate.RecordVerdict` | simulation/src/virtual_gate.cpp:215-219 | only a firing verdict appends an acknowledgement |
| `GateSafety.RunIsSafe` | simulation/src/virtual_gate.cpp:56-114 | over every run: each motor runs exactly in its state, the latch mirrors the beam, a blocked beam never sees the motor close, position stays within the stroke, Closed and Open are at their limits |
| `GateSafety.DoKeepsSafe` | simulation/src/virtual_gate.cpp:161-213 | every public method keeps that invariant, reboot and the reversal's re-entry included |
| `GateSafety.RunIsTimed` | simulation/src/virtual_gate.cpp:181-202 | over every run: the watchdog deadline lies in (now, now + timeout] exactly when moving, the auto-close one in (now, now + period] exactly when Open with auto-close on |
| `GateSafety.AutoClosesOnTime` | simulation/src/virtual_gate.cpp:110-113 | an undisturbed Open gate with a clear beam stays open until the first tick reaching its deadline and starts closing at it, for every split into ticks |
| `GateSafety.NeverTimesOutIff` | simulation/src/virtual_gate.cpp:87-114 | no run ever faults on the watchdog if and only if the watchdog is at least as long as the stroke |
| `GateSafety.ShortWatchdogTrips` | simulation/src/virtual_gate.cpp:106-109 | a run that faults for every watchdog shorter than the stroke |
| `GateSafety.FaultedMidTravelStaysPut` | simulation/src/virtual_gate.cpp:48-73 | faulted strictly between its limits, no further calls but a closed boot ever run a motor or change the position |
| `GateAcks.AcksConserved` | simulation/src/virtual_gate.cpp:25-31 | over every run the recorded ack ids are the issued ids, cut to 39 bytes, in issue order, minus the last exactly while the tracker is armed |
| `GateAcks.AcksTruthful` | firmware/components/gate_rpc/src/command_tracker.cpp:26-64 | after every run, each ack the next call records is true: success only on the commanded limit with motors off, beam failures only with the beam blocked, a halt never without reason, superseded only by a newer command |
| `GateAcks.AckedByDeadline` | firmware/components/gate_rpc/src/command_tracker.cpp:58-64 | for every positive deadline and ticks of at most 2^31 ms no command is pending once a tick has reached its deadline, across clock wraps |
| `GateAcks.DeadlineAcksAreLate` | firmware/components/gate_rpc/src/command_tracker.cpp:58-64 | with deadlines of at most 2^31 ms a run records a deadline failure only once the deadline has truly passed |
| `GateAcks.DeadlineFailuresLateIff` | firmware/components/gate_rpc/src/command_tracker.cpp:58-64 | all runs with ticks of at most 2^31 ms record only late deadline failures if and only if the configured deadline is at most 2^31 ms |
| `GateAcks.EarlyDeadlineAck` | firmware/components/gate_rpc/src/command_tracker.cpp:59 | a run that fails, for every longer deadline: an open issued on a closed gate is reported late by the next tick, at time 0 |
| `GateAcks.LongDeadlineExpiresEarly` | firmware/components/gate_rpc/src/command_tracker.cpp:59 | before its deadline a command counts as expired exactly when more than 2^31 ms remain |
| `GateAcks.MovesInTime` | simulation/src/virtual_gate.cpp:25-104 | an undisturbed command on a gate it sets in motion moves it a millisecond per millisecond until the first tick covering its stroke, where it arrives with one success ack, for every split into ticks |
| `GateAcks.OpensInTime` | simulation/src/virtual_gate.cpp:92-97 | an open from Closed or a stop: position plus elapsed time, then Open with one success ack |
| `GateAcks.ClosesInTime` | simulation/src/virtual_gate.cpp:98-104 | a close from Open or a stop with the beam clear: position minus elapsed time, then Closed with one success ack |
| `GateLaws.EveryCallIsLawful` | simulation/src/virtual_gate.cpp:19-114 | after every run, every call does what its law says of motors, position, beam, timers, state and reason: a stop stops, an open starts a closed or stopped gate, a close needs a clear beam, a broken beam stops or turns a closing gate, limits, watchdog and countdown end motion; a reason is held exactly while stopped or faulted |
| `GateLaws.StopAlwaysStops` | firmware/components/gate_state_machine/src/state_machine.cpp:78-97 | after every run an operator's stop leaves both motors off, the position as it was and no watchdog; a driven gate is stopped its way with that reason, any other keeps its state and reason |
| `GateLaws.EveryAckIsLawful` | firmware/components/gate_rpc/src/command_tracker.cpp:26-64 | after every run, every call records exactly the acks its law names, and leaves pending exactly the rest: late, turned back by the beam, arrived, halted with the gate's reason, refused, superseded, or none |
| `GateLaws.HaltIsAnswered` | firmware/components/gate_rpc/src/command_tracker.cpp:36-47 | a pending command whose gate stops or faults under way is answered in that call, once, with the gate's reason, unless the call finds it late |
| `GateLaws.RefusalIsAnswered` | firmware/components/gate_rpc/src/command_tracker.cpp:49-53 | a close refused at the open limit by a blocked beam answers a pending command in that call |
| `GateControl.GateController.PostEvent` | firmware/components/gate_control/src/gate_controller.cpp:222-227 | an event joins the queue's end, or is dropped when the queue is full |
| `GateControl.GateController.Execute` | firmware/components/gate_control/src/gate_controller.cpp:249-299 | the loop over actions leaves the relays as the entered state demands |
| `GateControl.GateController.ManageTimers` | firmware/components/gate_control/src/gate_controller.cpp:301-330 | each transition stops and starts both one-shot timers by the entered state |
| `GateControl.GateController.ApplyPolicies` | firmware/components/gate_control/src/gate_controller.cpp:332-360 | a beam stop queues an open, a refused auto-close is tried again a period later |
| `GateControl.GateController.ResolveBootPosition` | firmware/components/gate_control/src/gate_controller.cpp:229-247 | exactly one active limit decides the state, neither or both fault it |
| `GateControl.GateController.PumpOne` | firmware/components/gate_control/src/gate_controller.cpp:182-206 | one event from the queue: machine, relays, timers, policies, and a re-read position after a cleared fault |
| `GateControl.GateController.PumpUntilIdle` | firmware/components/gate_control/src/gate_controller.cpp:179-218 | the pump empties the queue, although policies post to it |
| `GateControl.GateController.Start` | firmware/components/gate_control/src/gate_controller.cpp:87-129 | start-up latches a blocked beam before the position is resolved; a second start is refused without effect |
| `GateControl.NeverBothOn` | firmware/components/gate_control/src/gate_controller.cpp:249-267 | for any actions in any order the two relays are never both on, not even between two writes |
| `GateControl.RunNeverBothOn` | firmware/components/gate_control/src/gate_controller.cpp:179-299 | over every run of posts, timer firings and pump turns, at every individual relay write the two relays are not both on, and the writes end where the controller is |
| `GateControl.StartPlaces` | firmware/components/gate_control/src/gate_controller.cpp:98-107 | exactly one asserted limit places a starting controller, none or both fault it; relays off, beam latched, countdown only at Open |
| `GateControl.RunDriven` | firmware/components/gate_control/src/gate_controller.cpp:179-299 | over every run of a started controller each relay is on exactly in its state, and at most 16 events wait |
| `GateControl.StopTurnStops` | firmware/components/gate_control/src/gate_controller.cpp:182-206 | after every run, the turn that takes a stop leaves both relays off, stops the machine its way if one was on, and otherwise changes nothing |
| `GateControl.QueueTakesSixteen` | firmware/components/gate_control/src/gate_controller.cpp:222-227 | events wait in order, and one that finds 16 waiting is dropped |
| `GateControl.LevelsEnd` | firmware/components/gate_control/src/gate_controller.cpp:249-267 | the individual relay writes of one turn end at the relay state the turn specifies |
| `GateControl.InjectAgrees` | firmware/components/gate_control/src/gate_controller.cpp:179-206 | any one event, drained, takes the controller where it takes the virtual gate: state, relays, timers |
| `GateControl.StepAgreesIff` | firmware/components/gate_control/src/gate_controller.cpp:112-118 | after any call the controller and the virtual gate agree if and only if the call does not pass time while driving into an active limit |
| `GateControl.PinnedDiverges` | firmware/components/gate_control/src/gate_controller.cpp:112-115 | in that situation the virtual gate arrives and the controller drives on until its watchdog faults it |
| `GateControl.PinnedIsReachable` | firmware/components/gate_control/src/gate_controller.cpp:112-115 | open, stop, close reaches that situation in every configuration |
| `GateControl.ControllerRefinesGate` | firmware/components/gate_control/src/gate_controller.cpp:179-360 | over every run that avoids it, controller and virtual gate agree after every call |
| `Framing.HeaderRoundTrip` | firmware/components/gate_rpc/src/grpc_framing.cpp:7-15 | the length read back from a header is the length it was made for |
| `Framing.LengthRoundTrip` | firmware/components/gate_rpc/src/grpc_framing.cpp:40-43 | every uncompressed header is the one made for the length it carries |
| `Framing.BigEndian` | firmware/components/gate_rpc/src/grpc_framing.cpp:40-43 | lengths are read most significant byte first, after the flag |
| `Framing.RefusedIff` | firmware/components/gate_rpc/src/grpc_framing.cpp:36-47 | a header is refused exactly if its flag is set or its length exceeds the buffer, and a frame is ready exactly when all of it is there |
| `Framing.FrameAssembler.Push` | firmware/components/gate_rpc/src/grpc_framing.cpp:17-71 | a push acts as parsing the bytes held plus the bytes given: waits, hands over the payload, or fails at the header; it makes progress, writes within capacity, and stays failed |
| `Framing.FrameAssembler.Reset` | firmware/components/gate_rpc/src/grpc_framing.cpp:73-79 | a reset forgets a failure and any partial frame |
| `Framing.DecodeEncoded` | firmware/components/gate_rpc/src/grpc_framing.cpp:7-71 | legal frames decode to their payloads, empty ones included, whatever follows |
| `Framing.DecodeIsPrefix` | firmware/components/gate_rpc/src/grpc_framing.cpp:29-70 | on arbitrary bytes exactly the legal frames before the first bad header or unfinished frame are delivered |
| `Framing.DecodeResumes` | firmware/components/gate_rpc/src/grpc_framing.cpp:17-71 | decoding a stream equals decoding it in two parts, wherever it is cut |
| `ControlStream.ControlSession.OnDataChunk` | firmware/components/gate_rpc/src/control_client.cpp:213-234 | a chunk delivers what decoding held bytes plus chunk delivers, stops at the byte where that fails, and ignores other streams |
| `ControlStream.ControlSession.Deliver` | firmware/components/gate_rpc/src/control_client.cpp:219-233 | the receive loop ends, having delivered every message the chunk completes |
| `ControlStream.ControlSession.SendEnvelope` | firmware/components/gate_rpc/src/control_client.cpp:399-419 | a payload that fits is framed and queued while connected, otherwise refused without effect |
| `ControlStream.ControlSession.PumpOutbound` | firmware/components/gate_rpc/src/control_client.cpp:633-637 | the oldest queued frame is handed over only when none is in flight |
| `ControlStream.ControlSession.DataRead` | firmware/components/gate_rpc/src/control_client.cpp:265-281 | a read takes the next bytes of the frame in flight, at most the size asked, and defers when there is none |
| `ControlStream.ChunkingIsIrrelevant` | firmware/components/gate_rpc/src/control_client.cpp:213-234 | for every byte stream and chunking, messages delivered, bytes held and failure depend only on the bytes |
| `ControlStream.FirstErrorPoint` | firmware/components/gate_rpc/src/control_client.cpp:226-230 | the failing chunk stops at the byte where the whole stream first goes wrong, and nothing is delivered after it |
| `ControlStream.WireIsFrames` | firmware/components/gate_rpc/src/control_client.cpp:265-281 | under any order of sends, hand-offs and reads, bytes read plus bytes held are the accepted frames in order |
| `ControlStream.AcceptedIff` | firmware/components/gate_rpc/src/control_client.cpp:399-419 | a message is taken exactly while connected, up to 507 bytes, with fewer than 8 waiting |
| `ControlStream.EverythingGoesOut` | firmware/components/gate_rpc/src/control_client.cpp:265-281 | however messages were sent, as many hand-offs and reads of any positive sizes as bytes are held empty the link |
| `ControlStream.FramesRoundTrip` | firmware/components/gate_rpc/src/grpc_framing.cpp:7-71 | framed payloads within capacity, in any chunking, arrive as exactly that list at a clean frame boundary |
| `ControlStream.RoundTrip` | firmware/components/gate_rpc/src/control_client.cpp:213-281 | end to end, any sends read in any sizes and received in any chunking arrive as exactly the accepted messages in order |
| `Broadcasting.FilterMatches` | server/dash/src/event_broadcaster.cpp:19-62 | the scan decides site, gate list and kind flags as the filter's predicate does, unset fields matching anything |
| `Broadcasting.ScopeAlone` | server/dash/src/event_broadcaster.cpp:22-44 | with no kind asked for, exactly the events of the site and gates given pass, all if none are |
| `Broadcasting.OneKindAsked` | server/dash/src/event_broadcaster.cpp:41-61 | with one kind asked for, of any site and gate, exactly that kind, commands and their acks pass; `OneMoreKind` and `ScopeAlone` give the rest |
| `Broadcasting.OneMoreKind` | server/dash/src/event_broadcaster.cpp:46-54 | asking for one more kind adds exactly the events of that kind in scope |
| `Broadcasting.SealedKeeps` | server/dash/src/event_broadcaster.cpp:208-215 | publishing keeps a draft's content, and its time if it has one |
| `Broadcasting.Subscription.Push` | server/dash/src/event_broadcaster.cpp:75-82 | a full queue drops its oldest event, counts it, and takes the new one |
| `Broadcasting.Subscription.Next` | server/dash/src/event_broadcaster.cpp:95-106 | the oldest queued event is taken, even after closing |
| `Broadcasting.Subscription.DrainNow` | server/dash/src/event_broadcaster.cpp:108-119 | the whole queue is returned in order and left empty |
| `Broadcasting.Subscription.Close` | server/dash/src/event_broadcaster.cpp:121-129 | closing keeps what is queued |
| `Broadcasting.EventBroadcaster.Commit` | server/dash/src/event_broadcaster.cpp:206-232 | the locked half of a publish: next id, a time unless one is set, ring eviction, and exactly the live subscribers, in order, as targets and as the subscribers left |
| `Broadcasting.EventBroadcaster.FanOut` | server/dash/src/event_broadcaster.cpp:234-247 | the unlocked half: each open, matching target is pushed once, nobody else is touched |
| `Broadcasting.EventBroadcaster.Publish` | server/dash/src/event_broadcaster.cpp:199-249 | a publish numbers the event, keeps it in the ring, offers it to every live subscriber and forgets the dead ones; once stopped it returns 0 without effect |
| `Broadcasting.EventBroadcaster.Subscribe` | server/dash/src/event_broadcaster.cpp:293-320 | a new subscriber starts with the matching ring events past its cursor, or none is made once stopped |
| `Broadcasting.EventBroadcaster.Stop` | server/dash/src/event_broadcaster.cpp:163-182 | stopping closes every live subscriber once |
| `EventRoutes.ReplayedIsReplay` | server/dash/src/event_broadcaster.cpp:304-315 | the observed replay is the subscription's own |
| `EventRoutes.RingGrows` | server/dash/src/event_broadcaster.cpp:216-218 | one push keeps the ring the newest events of a history, up to its capacity |
| `EventRoutes.RingIsNewest` | server/dash/src/event_broadcaster.cpp:207-218 | under every interleaving the ring is the newest committed events and ids count commits from 1 |
| `EventRoutes.InterleaveSound` | server/dash/src/event_broadcaster.cpp:199-249 | the protocol's invariant holds under every interleaving of commits, offers, subscribes, reads, closes and releases |
| `EventRoutes.ExactlyOneRoute` | server/dash/src/event_broadcaster.cpp:204-317 | an event owed to an attached open subscriber reaches it by replay or by push, never both and never neither; one not owed never does; owed are later matching events and those in the ring past its cursor |
| `EventRoutes.PushedIsAccountedFor` | server/dash/src/event_broadcaster.cpp:75-119 | pushed equals consumed plus dropped plus queued, as counts and as multisets, and the queue is the newest of what was pushed |
| `EventRoutes.PushedIsWanted` | server/dash/src/event_broadcaster.cpp:234-247 | under every interleaving, whatever is pushed to a subscriber was committed and passes its filter |
| `EventRoutes.FaultsOnlyGetsFaults` | server/dash/src/event_broadcaster.cpp:46-61 | under every interleaving a subscriber that asks for faults alone is pushed only faults, commands and acks, of its site and gates |
| `EventRoutes.ClosedGetsNothing` | server/dash/src/event_broadcaster.cpp:238-239 | a closed subscriber is pushed nothing more, whatever is on its way |
| `EventResume.CacheSummary` | dashboard/backend/src/event_cache.cpp:19-42 | after any events the ring holds the newest, each gate's snapshot is its latest telemetry, the cursor is the highest id |
| `EventResume.EventCache.Add` | dashboard/backend/src/event_cache.cpp:23-38 | one event updates cursor, ring and snapshot together |
| `EventResume.EventCache.Trim` | dashboard/backend/src/event_cache.cpp:28-30 | the loop leaves the newest entries within capacity |
| `EventResume.EventCache.ReadSession` | dashboard/backend/src/event_stream.cpp:66-73 | a session's events are all ingested in order, and any event resets the backoff |
| `EventResume.Stream` | dashboard/backend/src/event_stream.cpp:48-93 | each subscribe carries the cursor of everything ingested before, and the waits follow the doubling backoff |
| `EventResume.WaitBounded` | dashboard/backend/src/event_stream.cpp:90-91 | with the cap below half the 32-bit range every wait lies between the two configured bounds |
| `EventResume.SilenceDoublesTheWait` | dashboard/backend/src/event_stream.cpp:71-91 | with the cap below half the 32-bit range, the wait is the minimum after the first session or one with an event, and has doubled n times, up to the cap, after n silent ones more |
| `EventResume.DoublesIff` | dashboard/backend/src/event_stream.cpp:90-91 | silences of every length follow the capped doubling if and only if the cap is below half the 32-bit range or the minimum is zero; a higher cap wraps once reached |
| `EventResume.SessionsInTurn` | dashboard/backend/src/event_stream.cpp:57-91 | each session is opened with the highest id ingested before it, and followed by its wait |
| `EventResume.StreamTakes` | dashboard/backend/src/event_stream.cpp:51-57 | the subscription takes every event with a payload of its site, of any site if it names none |
| `EventResume.IngestedIdsIncrease` | dashboard/backend/src/event_stream.cpp:48-93 | over every run of publishes, deliveries, disconnects and reconnects, ingested ids strictly increase, whatever was lost |
| `EventResume.ReconnectExactIff` | server/dash/src/event_broadcaster.cpp:293-320 | a reconnect resumes exactly if and only if the ring still holds every owed event and the replay fits the queue |
| `EventResume.ResumesExactly` | dashboard/backend/src/event_stream.cpp:48-93 | over every run that loses nothing, what is ingested is the matching events from the first replayed on, each once, in order, with the rest in flight |
| `Allowlist.NormalizePlate` | server/auth/src/allowlist_store.cpp:170-185 | the loop computes the normal form |
| `Allowlist.NormalizeIdempotent` | server/auth/src/allowlist_store.cpp:170-185 | normalising a normal form changes nothing |
| `Allowlist.NormalFormIff` | server/auth/src/allowlist_store.cpp:170-185 | the normal forms are exactly the texts without space, tab, dash, underscore or lower-case letter |
| `Allowlist.SpellingsAgree` | server/auth/src/allowlist_store.cpp:170-185 | spellings that differ in case, spaces, tabs, dashes or underscores agree, and no other character is dropped or changed |
| `Allowlist.WindowIsArc` | server/auth/src/allowlist_store.cpp:190-199 | any window, wrapped past midnight or not, is an arc of the clock face on its days: its start pulled into the day, and as long as the minutes it covers; with both bounds in the day, from start round to end |
| `Allowlist.HugeBoundsAreNegative` | server/auth/src/allowlist_store.cpp:193-194 | bounds from 2^31 on are read as negative: a window from 0 to 2^32 - 1 spans every minute of its days, one from 2^32 - 1 to 0 none |
| `Allowlist.DatesPermit` | server/auth/src/allowlist_store.cpp:216-223 | with no other limit an entry is allowed from its start date to before its end date; a missing or non-positive date leaves its side open |
| `Allowlist.ClassesPermit` | server/auth/src/allowlist_store.cpp:201-209 | with no other limit a class list admits exactly its members, an empty one all |
| `Allowlist.WindowsPermit` | server/auth/src/allowlist_store.cpp:228-238 | with no other limit windows admit exactly the minutes of any one of them, an empty list all |
| `Allowlist.DaysPermit` | server/auth/src/allowlist_store.cpp:230-232 | an entry open all day on some days, and not otherwise limited, is allowed exactly on those, Monday being the lowest bit |
| `Allowlist.LimitsTogether` | server/auth/src/allowlist_store.cpp:213-239 | an entry is allowed exactly when dates, classes and windows each alone would allow it |
| `Allowlist.ZeroClockIff` | server/auth/src/allowlist_store.cpp:213-239 | a zeroed local time enforces windows: it passes exactly if there are none or one covers Sunday midnight |
| `Allowlist.ZeroClockRefused` | server/auth/src/allowlist_store.cpp:213-239 | an entry with office hours refuses a zeroed local time |
| `Allowlist.ClassRowsSet` | server/auth/src/allowlist_store.cpp:343-351 | storing classes keeps exactly the submitted set |
| `Allowlist.ClassRowsAscending` | server/auth/src/allowlist_store.cpp:426-434 | stored classes come back sorted without duplicates |
| `Allowlist.ByStartMultiset` | server/auth/src/allowlist_store.cpp:436-449 | ordering the windows by start loses and adds none |
| `Allowlist.ByStartSorted` | server/auth/src/allowlist_store.cpp:434-441 | windows come back in order of their start |
| `Allowlist.SamePolicy` | server/auth/src/allowlist_store.cpp:213-239 | equal class sets, equal window multisets and equal effective dates give equal verdicts for every class and time; what those verdicts are is stated by `DatesPermit`, `ClassesPermit`, `WindowsPermit` and `LimitsTogether` |
| `Allowlist.LookupMeansLastSubmitted` | server/auth/src/allowlist_store.cpp:270-451 | after any batch a plate under any spelling carries the details, the positive dates, the classes and windows in order, and the policy of the last entry submitted for it; other plates are as before |
| `Allowlist.SitesAreSeparate` | server/auth/src/allowlist_store.cpp:281-295 | what one site submits no other site sees |
| `Allowlist.RemovedIsGone` | server/auth/src/allowlist_store.cpp:506-530 | after a remove no spelling of a named plate finds anything, and every other lookup is as it was |
| `Allowlist.AllowlistStore.WriteClasses` | server/auth/src/allowlist_store.cpp:335-351 | the class rows of a plate are wiped and rewritten, no other plate's |
| `Allowlist.AllowlistStore.WriteWindows` | server/auth/src/allowlist_store.cpp:353-373 | the window rows of a plate are wiped and rewritten, no other plate's |
| `Allowlist.AllowlistStore.Write` | server/auth/src/allowlist_store.cpp:319-373 | one entry replaces main row, classes and windows of its key |
| `Allowlist.AllowlistStore.Upsert` | server/auth/src/allowlist_store.cpp:270-386 | all entries are written or none, as no plate or some plate normalises to nothing; inserted plus updated is the batch size, inserted the growth in keys |
| `Allowlist.AllowlistStore.Find` | server/auth/src/allowlist_store.cpp:388-451 | a lookup answers for the normal form of its text |
| `Allowlist.AllowlistStore.Remove` | server/auth/src/allowlist_store.cpp:506-530 | exactly the named keys go, with their classes and windows, and the count is the shrinkage |
| `Allowlist.AllowlistStore.IsBlocked` | server/auth/src/allowlist_store.cpp:453-461 | a plate is blocked under every spelling or none |
| `Allowlist.AllowlistStore.BlockPlate` | server/auth/src/allowlist_store.cpp:463-485 | blocking writes one row, replacing its reason and time, or is refused for an empty plate |
| `KeysetWalk.LessIsFirstDifference` | server/auth/src/allowlist_store.cpp:542-543 | plates compare by the first byte that differs, a prefix before what it begins |
| `KeysetWalk.PlatesInOrder` | server/auth/src/allowlist_store.cpp:538-545 | the query's order: a site's plates, ascending by bytes, each once |
| `KeysetWalk.ReadRows` | server/auth/src/allowlist_store.cpp:554-576 | the row loop takes the limit at most, and one row past it says there are more |
| `KeysetWalk.Hydrate` | server/auth/src/allowlist_store.cpp:579-637 | each listed plate gets its own class and window rows |
| `KeysetWalk.List` | server/auth/src/allowlist_store.cpp:532-637 | a page is the plates after the token up to the clamped size, with a next token exactly when more follow; only a last page carries classes and windows |
| `KeysetWalk.PageIs` | server/auth/src/allowlist_store.cpp:532-558 | a page ascends past its token and misses no plate before its end |
| `KeysetWalk.PageLength` | server/auth/src/allowlist_store.cpp:536 | a page is as long as asked, between 1 and 1000, unless fewer plates are left |
| `KeysetWalk.WalkIsExact` | server/auth/src/allowlist_store.cpp:532-558 | with any upserts, removes and page sizes between pages, returned plates strictly increase and every plate present throughout is returned, up to where the walk stopped |
| `KeysetWalk.WalkReturnsRows` | server/auth/src/allowlist_store.cpp:532-558 | only plates present at some page are returned |
| `KeysetWalk.ApplyAllNamesPlates` | server/auth/src/allowlist_store.cpp:308-311 | no run of changes ever stores an empty plate, so an empty token always means the end |
| `KeysetWalk.ApplyAllConsistent` | server/auth/src/allowlist_store.cpp:270-530 | every run of upserts and removes keeps main, class and window rows on the same keys |
| `KeysetWalk.WalkEnds` | server/auth/src/allowlist_store.cpp:532-558 | on an unchanging store a walk from any token ends within as many pages as plates remain, having returned exactly those in order |
| `KeysetWalk.FullWalk` | server/auth/src/allowlist_store.cpp:532-558 | from the empty token it returns exactly the sorted plate list |
| `Fusion.Best` | server/fusion/src/fusion_engine.cpp:34-58 | the pick is the first of the greatest confidences above -1, or -1 when there is none |
| `Fusion.BestUnique` | server/fusion/src/fusion_engine.cpp:34-58 | nothing else meets that description |
| `Fusion.PickBestPlate` | server/fusion/src/fusion_engine.cpp:34-45 | the loop over plates finds that pick |
| `Fusion.PickBestVehicle` | server/fusion/src/fusion_engine.cpp:47-58 | the loop over vehicles finds that pick |
| `Fusion.FusionEngine.SetOverride` | server/fusion/src/fusion_engine.cpp:75-88 | afterwards the gate reads the override set and every other gate its old one |
| `Fusion.FusionEngine.DecideAt` | server/fusion/src/fusion_engine.cpp:97-217 | the chain of early returns decides as the ladder of rules, though the store normalises the plate again |
| `Fusion.PlateReadable` | server/fusion/src/fusion_engine.cpp:119-125 | there is a best plate exactly when some detection confidence is above -1 |
| `Fusion.AlprIsMean` | server/fusion/src/fusion_engine.cpp:26-30 | the camera side is the mean of its two confidences, a negative one counting as nothing |
| `Fusion.WeightsWeigh` | server/fusion/src/fusion_engine.cpp:144 | each weight weighs its own side |
| `Fusion.BlendMonotone` | server/fusion/src/fusion_engine.cpp:144 | more confidence on either side never lowers the blend |
| `Fusion.LidarSpeaks` | server/fusion/src/fusion_engine.cpp:133-139 | the LiDAR side speaks for the first most confident vehicle; with none above -1 the class is unknown and the configured confidence stands in |
| `Fusion.AuthorizedIff` | server/fusion/src/fusion_engine.cpp:97-217 | AUTHORIZED if and only if not force-closed, a plate is readable, and force-open or (confident, not blocklisted, and a guard override or a currently allowed entry); and only then no reason is given |
| `Fusion.ReasonIff` | server/fusion/src/fusion_engine.cpp:106-212 | every reason is given exactly for its cause, ties of low confidence falling to the camera; a wrong class exactly on review, none exactly on admission |
| `Fusion.DecisionCarries` | server/fusion/src/fusion_engine.cpp:99-145 | a decision names its request, and the plate, class and confidence read once the lockdown is past |
| `Fusion.ReviewIff` | server/fusion/src/fusion_engine.cpp:198-212 | MANUAL_REVIEW if and only if the ladder reaches the entry and its class is wrong, whatever date and hour |
| `Fusion.EnforcesSubmitted` | server/fusion/src/fusion_engine.cpp:189-216 | after a batch, a confident unblocked vehicle gets in exactly when the last entry submitted for its plate, in any spelling, allows it now |
| `Fusion.ExpiredIsRefused` | server/fusion/src/fusion_engine.cpp:189-212 | once the last entry submitted for a plate has run out, no spelling of it is let in unlatched and unbypassed |
| `AuthRuns.Services.SubmitDetection` | server/rpc/src/field_controller_service.cpp:137-167 | the decision is published, then an open naming it exactly when it is AUTHORIZED; no gate id is an error without effect |
| `AuthRuns.Services.IssueCommand` | server/rpc/src/dashboard_service.cpp:64-121 | a latch command sets its gate's override, then the stamped command and its receipt are published; a missing gate or kind is an error without effect |
| `AuthRuns.Services.ApplyLatch` | server/rpc/src/dashboard_service.cpp:90-102 | each latch command sets its gate's override, any other command sets none |
| `AuthRuns.Services.AuthorizeRequest` | server/rpc/src/dashboard_service.cpp:123-135 | the decision is published under the request's site and nothing is commanded |
| `AuthRuns.RunIsLawful` | server/rpc/src/field_controller_service.cpp:137-167 | over every run of handlers: each override is the last latch published for the gate; no gate in lockdown is authorized or opened; every automatic open directly follows the published AUTHORIZED decision for its gate that it names |
| `AuthRuns.NoAutoOpenInLockdown` | server/rpc/src/dashboard_service.cpp:90-105 | no automatic open for a gate is published between its LATCH_CLOSE and the next LATCH_OPEN or RELEASE_LATCH |
| `AuthRuns.AutoOpenIff` | server/rpc/src/field_controller_service.cpp:137-167 | a submission opens its gate by itself if and only if there is no lockdown, a plate is readable, and the gate is latched open or a confident, unblocked plate has an entry that allows its vehicle now; no guard's word enters; the decision comes first, the command names it |
| `AuthRuns.UnlistedStaysOut` | server/rpc/src/field_controller_service.cpp:142-146 | after every run a plate the tables do not hold opens no gate whose last published latch is not LATCH_OPEN |
| `AuthRuns.AuthorizeAnswers` | server/rpc/src/dashboard_service.cpp:123-135 | a dashboard's request is answered under its own site and actor, by the rule in which a guard's word counts, and commands nothing |
| `AuthRuns.IssueTells` | server/rpc/src/dashboard_service.cpp:73-119 | a command is published as issued, with an id and a time only if it had none, and its receipt follows |
| `AuthRuns.LatchesLatch` | server/rpc/src/dashboard_service.cpp:90-102 | after LATCH_OPEN any readable plate opens the gate, after LATCH_CLOSE none, after RELEASE_LATCH only one let in on its own; other gates and commands change nothing |
| `AuthRaces.PlayHolds` | server/rpc/src/field_controller_service.cpp:146-165 | under every interleaving of override, blocklist and allowlist reads, publications, dispatches, latches and store changes, each automatic open goes back to a published decision that authorized its gate, by a submission that found it not in lockdown |
| `AuthRaces.LockdownIff` | server/fusion/src/fusion_engine.cpp:75-88 | a gate is in lockdown exactly when it was latched closed and not latched again since |
| `AuthRaces.OpenInLockdownIff` | server/rpc/src/field_controller_service.cpp:146-165 | an automatic open falls in a lockdown if and only if the lockdown began after the submission behind it had read the override |
| `AuthRaces.RaceExists` | server/rpc/src/field_controller_service.cpp:146-165 | such an interleaving exists in every configuration |
| `Debounce.SpansDebounceIff` | firmware/components/gate_drivers/src/safety_beam.cpp:24-26 | the sample count spans the debounce time exactly when its 32-bit rounding does not wrap or one poll is enough, and is never more than needed |
| `Debounce.LongestDebounceWraps` | firmware/components/gate_drivers/src/safety_beam.cpp:24-26 | the longest debounce time at two milliseconds a poll is cut to one poll |
| `Debounce.Debouncer.constructor` | firmware/components/gate_drivers/src/safety_beam.cpp:24-29 | the counter starts committed at the level read |
| `Debounce.Debouncer.OnPoll` | firmware/components/gate_drivers/src/safety_beam.cpp:68-87 | one poll has the effect of the counter machine on level, count, committed value and callbacks |
| `Debounce.CommittedIsSettled` | firmware/components/gate_drivers/src/limit_switch.cpp:66-90 | for every history the committed value is c if and only if c is the last level to have held max(2, samples) polls, or the initial one if none has |
| `Debounce.SettledUnique` | firmware/components/gate_drivers/src/limit_switch.cpp:66-90 | at most one level fits that description |
| `Debounce.CallsExactly` | firmware/components/gate_drivers/src/limit_switch.cpp:80-89 | the callback is called at a poll exactly when its level, not the committed one, has just held for that count, and is given that level |
| `Debounce.CallbacksAlternate` | firmware/components/gate_drivers/src/safety_beam.cpp:81-86 | callbacks strictly alternate, the first away from the initial level, the last being the committed one |
| `Debounce.CommitsAfterExactly` | firmware/components/gate_drivers/src/safety_beam.cpp:68-87 | a new level lasting k polls is committed if and only if k reaches that count, with one callback; a shorter glitch never is |
| `Ctc.BestOf` | server/inference/src/detail/cpu_algorithms.cpp:60-67 | the inner loop finds the first greatest score of a row |
| `Ctc.ArgMaxUnique` | server/inference/src/detail/cpu_algorithms.cpp:60-67 | no other class is the first greatest |
| `Ctc.PeakIsGreatest` | server/inference/src/detail/cpu_algorithms.cpp:60-67 | a frame's score is the row's greatest, found at its class |
| `Ctc.RowAt` | server/inference/src/detail/cpu_algorithms.cpp:58 | scores lie row after row |
| `Ctc.GreedyDecode` | server/inference/src/detail/cpu_algorithms.cpp:45-85 | the one pass gives the text of argmax, collapse, drop blanks, and the mean score of the frames kept; an empty shape gives nothing |
| `Ctc.KeptIsDecode` | server/inference/src/detail/cpu_algorithms.cpp:69-81 | the frames one pass keeps spell what the two passes leave |
| `Ctc.KeptAreFrames` | server/inference/src/detail/cpu_algorithms.cpp:69-79 | what is kept are frames, scores and all, and none of them blank |
| `Ctc.WordsOfClasses` | server/inference/src/detail/cpu_algorithms.cpp:69-77 | class 0 is the blank; class k + 1 is word k of the dictionary, and one past it adds nothing |
| `Ctc.TextAppends` | server/inference/src/detail/cpu_algorithms.cpp:74-77 | the text of two labels in a row is the two texts in a row |
| `Ctc.MeanIsTotalOverCount` | server/inference/src/detail/cpu_algorithms.cpp:78-83 | the mean is the total of the kept scores over their count |
| `Ctc.DecodeSpread` | server/inference/src/detail/cpu_algorithms.cpp:69-81 | every alignment of a label (repeats, blanks, a blank between equal neighbours) decodes to the label |
| `Ctc.EveryPathIsSpread` | server/inference/src/detail/cpu_algorithms.cpp:69-81 | every path is an alignment of what it decodes to |
| `Ctc.AlignmentReads` | server/inference/src/detail/cpu_algorithms.cpp:45-85 | scores whose best classes follow an alignment of a label read as that label's text |
| `Ctc.ConfidenceBetween` | server/inference/src/detail/cpu_algorithms.cpp:83 | the confidence is 0 when no frame is kept, and otherwise within any bounds on the kept scores |

## Left out

- Floating point: confidences and scores are exact reals, the gate's position an integer, as it only ever sums whole milliseconds; rounding and NaN are not modelled.
- The gate's 64-bit clock does not wrap; its 32-bit view of it does.
- GateControl.ControllerRefinesGate: leaves out `boot_closed`, which sets the physical position and has no counterpart on the controller.
- GateControl.StepAgreesIff: takes each call's events as drained before the next call, and the inputs as debounced.
- GateAcks.MovesInTime: for command deadlines of at most 2^31 ms, as longer ones expire early; `OpensInTime` and `ClosesInTime` inherit it.
- EventResume.ResumesExactly: within one server lifetime and for serialized publishes; ids restart with the server, and two publishes may push in either order.
- AuthRuns.RunIsLawful: marks automatic opens by who dispatched them, as a dashboard may send any actor text.
- Window rows with equal starts come back in insertion order here; SQL leaves the order open, and `SamePolicy` shows it cannot matter.
- ControlStream.ControlSession.SendEnvelope: takes the encoded payload; nanopb encoding and nghttp2 are left out.
- GateControl.GateController.Start: does not model the settle delay, the registration of callbacks or a failure to create the pump thread; inputs are read settled, and events arrive through `PostEvent`.
- Broadcasting.Subscription.Next: does not model the timed wait; it answers for the moment the wait ends.
- `ControlClient` dispatches before arming, so acknowledgement timing is stated over the virtual gate only.
- JSON frames, sinks and WebSocket attach: presentation around the event cache.
- LED patterns beyond which state each stands for, log lines, heartbeats and telemetry have no effect on the modelled state.
- Raw pin levels: polarity is a single negation before the debouncer.
- UUIDs, wall-clock times and local time are parameters.
- SQLite, its locks and its errors other than the empty plate: tables are maps.
- Blocklist removal, schema migration: easy members beside the ones modelled.
- Camera, inference engines, letterboxing and box geometry, JWT and password hashing, OTA, the admin service, the mock server and the web frontend.
