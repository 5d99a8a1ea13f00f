# lerobot-go in Dafny

A model of the core of lerobot-go, a Go program that teleoperates SO-101 robot
arms. A leader arm is moved by hand. A follower arm mirrors it.

The model covers these parts:

- **The motor catalogue.** The six joint names in canonical order. The joint at index i is driven by servo i + 1.
- **The calibration mapping.** A per-motor affine map between raw servo units and the normalized range [-100, 100], with a guard for zero width. Go's float-to-int conversion truncates toward zero, and the model writes that out. Two ID lookups: by canonical order, and by servo ID.
- **The arm.** Converting a batched raw read into normalized positions, and normalized targets into a raw write. Binding an arm's servo group to its calibrated IDs.
- **The teleoperation controller.** A state machine with:
  - a `running` flag and a rejected double start;
  - one control step: read the leader, mirror optionally, write the follower, publish the state;
  - a one-slot state mailbox that overwrites;
  - a ten-line log queue that drops lines when full;
  - shutdown and close.
- **The setup wizard** of `lerobot setup`:
  - the SO-101 check of a bus scan;
  - role identification and the roles offered;
  - recording each motor's range of motion from a first sample and periodic ticks until a quit key;
  - building the calibration with IDs 1 to 6.
- **The port scanner** `robot-info`. It assigns roles to the found arms, saves or does not save the port file, and picks an exit status.
- **The teleoperation view and command line**, in both copies (`lerobot teleoperate` and `lerobot-teleoperate`):
  - the five most recent log lines;
  - movement detection;
  - the chart size;
  - the terminal update handler;
  - the configuration checks done before starting;
  - the flag and config-file fallback for ports and calibration paths.

## How things outside the model are handled

- **The servo bus** (feetech) and the terminal forms are inputs:
  - a bus read is `Result<map<int, int>>`;
  - a bus write, enable, disable, open or close is an `Outcome`;
  - a wiggle is an `Outcome`;
  - an answer to the role form is `FormAnswer` (aborted, or a cursor into the options).
- **Timestamps** are opaque integers.
- **Go channels** are sequential state:
  - the state channel (capacity 1) is an `Option<State>` slot;
  - the log channel (capacity 10) is a bounded `seq`.
- **Go map iteration order** is unspecified. The loops that depend on it (`ByID`, `ReadPositions`, `WritePositions`, mirroring, `hasMovement`) pick the next key nondeterministically. Their contracts hold for every order. Where the result could depend on the order, a lemma proves it does not once the calibration's servo IDs are unique (`UniqueIDs`). So uniqueness is the hypothesis of a lemma, not a precondition of the operation.
- **Identical copies.** `isSOArm` appears in both `cmd/lerobot/setup.go` and `cmd/robot-info/main.go` and is modelled once, as `Setup.IsSOArm`. Likewise `addLog`, `hasMovement` and `chartSize` appear in both teleoperation front ends and are modelled once, in `TeleopView`.

## Modules

| file | module | models |
|---|---|---|
| wrappers.dfy | Wrappers | `Option`, `Result`, `Outcome` (Go `error`) |
| motors.dfy | Motors | pkg/robot/motors.go |
| calibration.dfy | Calibrations | pkg/robot/calibration.go |
| robot_config.dfy | RobotConfig | the types and `IsCalibrated` of pkg/robot/config.go |
| arm.dfy | Arms | pkg/robot/arm.go |
| teleop.dfy | Teleop | pkg/teleop/teleop.go |
| setup.dfy | Setup | cmd/lerobot/setup.go (and `isSOArm` of cmd/robot-info/main.go) |
| robot_info.dfy | RobotInfo | cmd/robot-info/main.go |
| teleop_view.dfy | TeleopView | the models of cmd/lerobot/teleoperate.go and cmd/lerobot-teleoperate/main.go, and `Execute`'s checks |
| teleop_cli.dfy | TeleopCli | the port fallback in `main` of cmd/lerobot-teleoperate/main.go |

## Model

| member | source | states |
|---|---|---|
| Motors.AllMotors | pkg/robot/motors.go:17-27 | exactly six motor names, pairwise distinct, in canonical order |
| Motors.ServoOf | pkg/robot/motors.go:17 | the canonical motor at index i has servo ID i + 1, within 1..6 |
| Calibrations.Trunc | pkg/robot/calibration.go:55 | Go's `int(float64)`: the integer toward zero within distance 1 of x, on each side of 0 |
| Calibrations.Normalize | pkg/robot/calibration.go:44-50 | zero width yields 0 for any raw value |
| Calibrations.NormalizeScale | pkg/robot/calibration.go:49 | with non-zero width, (norm + 100) * width = 200 * (raw - rangeMin) |
| Calibrations.TruncExact | pkg/robot/calibration.go:55 | truncating an integral value gives that integer |
| Calibrations.NormalizeEndpoints | pkg/robot/calibration.go:44-50 | rangeMin maps to -100, rangeMax to 100, the midpoint to 0 |
| Calibrations.NormalizeDegenerate | pkg/robot/calibration.go:45-48 | rangeMin = rangeMax gives 0 for every raw value |
| Calibrations.NormalizeAffine | pkg/robot/calibration.go:49 | the difference of two normalized values is 200/width times the raw difference |
| Calibrations.NormalizeStrictlyIncreasing | pkg/robot/calibration.go:49 | with positive width, Normalize is strictly increasing in raw |
| Calibrations.NormalizeUnclamped | pkg/robot/calibration.go:49 | no clamping: above rangeMax exceeds 100, below rangeMin is under -100, inside the range stays in [-100, 100] |
| Calibrations.Denormalize | pkg/robot/calibration.go:53-56 | zero width always yields rangeMin |
| Calibrations.DenormalizeEndpoints | pkg/robot/calibration.go:53-56 | -100 maps to rangeMin, 100 to rangeMax, 0 to rangeMin + trunc(width / 2), the midpoint when the width is even |
| Calibrations.DenormalizeMonotone | pkg/robot/calibration.go:53-56 | with positive width, Denormalize is monotone |
| Calibrations.ScaleMonotone | pkg/robot/calibration.go:55 | the scaled offset (norm + 100) / 200 * width is monotone in norm for non-negative width |
| Calibrations.TruncMonotone | pkg/robot/calibration.go:55 | truncation toward zero is monotone |
| Calibrations.DenormalizeWithinRange | pkg/robot/calibration.go:53-56 | a normalized value in [-100, 100] maps into [rangeMin, rangeMax] |
| Calibrations.RoundTrip | pkg/robot/calibration.go:44-56 | Denormalize(Normalize(raw)) = raw exactly in real arithmetic, whenever the width is non-zero or raw lies in the range |
| Calibrations.ExampleRange1000To3000 | pkg/robot/calibration.go:44-56 | for range 1000..3000: 1500 ↔ -50 and 2500 ↔ 50 in both directions |
| Calibrations.CalibratedNames | pkg/robot/calibration.go:62-66 | the canonical names present in the calibration, no more than the names scanned |
| Calibrations.MotorIDs | pkg/robot/calibration.go:59-68 | the IDs of the present canonical motors, in canonical order, exactly one per canonical motor present in the calibration |
| Calibrations.CollectIDs | pkg/robot/calibration.go:61-67 | the loop over a name list collects, in order, the ID of each name the calibration holds |
| Calibrations.MotorIDsCount | pkg/robot/calibration.go:59-68 | as many IDs as there are canonical motors present in the calibration |
| Calibrations.CalibratedNamesCount | pkg/robot/calibration.go:62-66 | over distinct names the kept names are distinct, one per name present in the calibration |
| Calibrations.CalibratedNamesInOrder | pkg/robot/calibration.go:62-66 | the kept names keep the order of the scanned names |
| Calibrations.CalibratedNamesAll | pkg/robot/calibration.go:59-68 | every scanned name is kept iff every one is calibrated |
| Calibrations.CalibratedNamesTotal | pkg/robot/calibration.go:59-68 | when every name is calibrated, all are kept in order |
| Calibrations.CalibratedIDsCount | pkg/robot/calibration.go:59-68 | at most six IDs, and exactly six iff all six motors are calibrated |
| Calibrations.CanonicalIDsUnique | pkg/robot/calibration.go:71-78 | a calibration with IDs 1..6 on the canonical motors has unique IDs |
| Calibrations.CanonicalMotorIDs | pkg/robot/calibration.go:59-68 | such a calibration yields MotorIDs [1, 2, 3, 4, 5, 6] |
| Calibrations.ServoSequence | pkg/robot/motors.go:17 | six entries with s[i] = i + 1 are the sequence 1..6 |
| Calibrations.IDsOfTotal | pkg/robot/calibration.go:59-68 | over fully calibrated names, the ID list is the IDs of the names in order |
| Calibrations.ByID | pkg/robot/calibration.go:70-78 | found iff some entry has the ID, which is then returned with its name; otherwise ("", zero calibration); with unique IDs the name is the only one |
| Arms.ReadingComplete | pkg/robot/arm.go:64-74 | a conversion that has handled every raw ID is a complete reading |
| Arms.ReadingStep | pkg/robot/arm.go:66-72 | handling one raw ID, storing it only if ByID resolves it, keeps the partial reading |
| Arms.ReadingIsDetermined | pkg/robot/arm.go:64-74 | with unique IDs, every complete reading equals the one normalized map, whatever the iteration order |
| Arms.CommandIsDetermined | pkg/robot/arm.go:80-88 | with unique IDs, the raw batch has exactly the IDs of the calibrated targets, each the Denormalize of its target |
| Arms.Arm.Close | pkg/robot/arm.go:40-43 | the bus is closed and its outcome returned |
| Arms.Arm.ReadPositions | pkg/robot/arm.go:55-75 | a failed read is "read positions: " + error; otherwise the result holds exactly the calibrated motors whose IDs were read, each normalized, and unknown IDs are skipped |
| Arms.Arm.WritePositions | pkg/robot/arm.go:77-96 | names without calibration are skipped, the others go to their ID denormalized; a failed write is "write positions: " + error, else success |
| Arms.NewArm | pkg/robot/arm.go:17-38 | a failed open is "open bus: " + error; otherwise a fresh open arm whose group is exactly MotorIDs of the calibration |
| Arms.Arm.Bind | pkg/robot/arm.go:33-37 | the arm holds the port, calibration and servo group, and is open |
| Teleop.EffectiveHz | pkg/teleop/teleop.go:64-66 | a non-positive Hz becomes 60, any other is kept; the result is positive |
| Teleop.TickInterval | pkg/teleop/teleop.go:147 | the ticker period `time.Second / hz` truncates: the largest d with d * hz <= 10^9 nanoseconds, zero exactly when hz > 10^9 |
| Teleop.TickIntervalExamples | pkg/teleop/teleop.go:147 | 60 Hz ticks every 16666666 ns; every rate up to 10^9 gives a non-zero period, and 10^9 + 1 gives zero |
| Teleop.Mirrored | pkg/teleop/teleop.go:171-181 | mirroring keeps the key set |
| Teleop.MirroredInvolution | pkg/teleop/teleop.go:171-181 | mirroring twice gives the original positions |
| Teleop.MirroredEntries | pkg/teleop/teleop.go:171-181 | shoulder_pan and wrist_roll are negated, the others copied; a changed entry is a mirrored joint at a non-zero position |
| Teleop.UnmirroredTargets | pkg/teleop/teleop.go:171-184 | with mirroring off the follower targets are the leader positions; with it on they have the same keys |
| Teleop.MirroredExample | pkg/teleop/teleop.go:171-181 | a concrete map with both mirrored joints and one copied joint |
| Teleop.MirrorPositions | pkg/teleop/teleop.go:173-180 | the mirroring loop computes Mirrored, whatever the iteration order |
| Teleop.EnqueueBounded | pkg/teleop/teleop.go:112-119 | the log queue never exceeds ten lines and only grows at its end |
| Teleop.EnqueueDropsOnlyWhenFull | pkg/teleop/teleop.go:112-119 | a line is dropped iff the queue is full; otherwise it is appended last |
| Teleop.Decimal | pkg/teleop/teleop.go:144 | the decimal rendering of the rate in the start log line: all digits, whose value read back is the rate, with no leading zero, a single digit exactly below 10 |
| Teleop.DecimalExample | pkg/teleop/teleop.go:144 | 60 renders as "60" |
| Teleop.Failures | pkg/teleop/teleop.go:84-91 | the collected close errors are empty iff every close succeeded |
| Teleop.ServedEndToEnd | pkg/teleop/teleop.go:161-186 | with unique IDs, each calibrated leader motor read yields a follower write to that motor's ID, equal to Denormalize of the (optionally mirrored) normalized reading |
| Teleop.Controller.Make | pkg/teleop/teleop.go:68-75 | a new controller holds its arms, rate and mirror flag, is not running, and has an empty mailbox and log queue |
| Teleop.Controller.Log | pkg/teleop/teleop.go:112-119 | the queue becomes Enqueue of the old queue and the line; nothing else changes |
| Teleop.Controller.SendState | pkg/teleop/teleop.go:195-206 | the slot holds exactly the new state, discarding any unread one |
| Teleop.Controller.ReceiveState | pkg/teleop/teleop.go:97-100 | a receive takes the slot's state and empties the slot |
| Teleop.Controller.ReceiveLog | pkg/teleop/teleop.go:102-105 | a receive takes the oldest queued line, or nothing from an empty queue |
| Teleop.Controller.Begin | pkg/teleop/teleop.go:122-144 | while running: "already running" and nothing changes; otherwise running is set and the torque and start lines are logged |
| Teleop.Controller.Step | pkg/teleop/teleop.go:161-193 | a failed read publishes the error with no positions and writes nothing; otherwise the (mirrored) targets are written, a failure only logged, and the unmirrored positions published; the queue gains exactly StepLines and the slot is Published for the tick |
| Teleop.Controller.Shutdown | pkg/teleop/teleop.go:208-220 | running is cleared, the follower is disabled and the outcome and the stop line are logged |
| Teleop.Controller.Loop | pkg/teleop/teleop.go:149-158 | one step per tick in order: each write is served from its tick's read, the queue is StepsLines of the ticks, and the slot holds the state published for the last tick (unchanged when there are none) |
| Teleop.Controller.Start | pkg/teleop/teleop.go:122-159 | a double start is rejected unchanged; a zero ticker period fails with the NewTicker panic after the three start-up lines, still running, nothing written and the slot unchanged; otherwise the queue is the start-up lines, then each step's line, then the two shutdown lines, the slot holds the last tick's published state (unchanged without ticks), and the context error is returned |
| Teleop.StepsLinesBounded | pkg/teleop/teleop.go:149-193 | over any ticks the queue stays within ten lines and keeps every queued line; a full queue drops every step's line, and error-free steps log nothing |
| Teleop.Controller.Close | pkg/teleop/teleop.go:79-95 | running is cleared and both arms closed even if the leader fails; success iff both succeed, else "close errors: [..]" of the failures |
| Teleop.NewController | pkg/teleop/teleop.go:46-76 | leader open failure is "create leader arm: open bus: ..."; follower failure closes the leader and is "create follower arm: ..."; otherwise a new controller at EffectiveHz |
| Setup.IsSOArm | cmd/lerobot/setup.go:274-291 | true iff there are exactly six servos and every ID 1..6 is among them |
| Setup.ServoIDsCount | cmd/lerobot/setup.go:274-291 | the set of IDs is no larger than the scan, and strictly smaller when an ID repeats |
| Setup.SO101Exact | cmd/lerobot/setup.go:274-291 | an SO-101 scan has exactly the IDs 1..6, with no duplicate |
| Setup.SO101Examples | cmd/lerobot/setup.go:274-291 | a shuffled 1..6 scan passes; one with a duplicate and a missing ID fails |
| Setup.FindWiggleServo | cmd/lerobot/setup.go:298-309 | servo 1 is found iff the scan has ID 1 |
| Setup.SO101HasWiggleServo | cmd/lerobot/setup.go:298-309 | every SO-101 arm has the servo to wiggle |
| Setup.Pick | cmd/lerobot/setup.go:341-366 | the chosen value is one of the options, the one under the cursor when it is in range |
| Setup.RoleOptions | cmd/lerobot/setup.go:341-349 | a role is offered iff still unassigned, "skip" is always offered last, nothing else is offered |
| Setup.Identification | cmd/lerobot/setup.go:293-373 | no servo 1 or a failed wiggle gives no role; an aborted form, and only that, exits with status 0; a selected answer gives no role iff the picked option is "skip", and otherwise exactly the picked role, which was offered |
| Setup.RolesOffered | cmd/lerobot/setup.go:341-373 | for a wiggled arm, the first option gives "leader" when it is needed, the next gives "follower", and the last gives no role |
| Setup.IdentifyArm | cmd/lerobot/setup.go:293-373 | the identification of one arm, with the search for servo 1, is Identification |
| Setup.Finish | cmd/lerobot/setup.go:107-133 | both ports set gives the configuration with those ports and empty calibrations; otherwise exit with status 1 |
| Setup.ScanFrom | cmd/lerobot/setup.go:86-133 | the scan from arm k exits with status 0 or 1, or finds both ports non-empty with empty calibrations |
| Setup.ScanForArms | cmd/lerobot/setup.go:71-134 | the scan loop with its early break computes ScanFrom from the first arm; no arm exits 1; success has both ports from two different arms |
| Setup.ScanExitsOnAbort | cmd/lerobot/setup.go:89-102 | the scan exits with status 0 only when some wiggled arm's form was aborted |
| Setup.ScanFirstTwo | cmd/lerobot/setup.go:89-102 | first option on two wiggled arms: the first is leader, the second is offered only follower and skip and becomes follower, and later arms are not asked about |
| Setup.ScanAbortFirst | cmd/lerobot/setup.go:89-102 | an aborted form on the first wiggled arm ends the scan with status 0 whatever follows |
| Setup.Seeded | cmd/lerobot/setup.go:169-180 | before sampling, current = minimum = maximum = the first position |
| Setup.Widen | cmd/lerobot/setup.go:462-482 | a failed read changes nothing; a position becomes current and widens the minimum and maximum to include it, and only to it |
| Setup.ReplayRange | cmd/lerobot/setup.go:462-482 | after any samples, min <= cur <= max, and the range is the smallest one holding the first position and every successful sample |
| Setup.ReplayExample | cmd/lerobot/setup.go:462-482 | 1500 then 1200, a failed read, 1800, 1600 records 1200..1800 with a good span |
| Setup.SpanNeverShrinks | cmd/lerobot/setup.go:503-532 | the span max - min is non-negative, never shrinks, and once good (> 500) stays good |
| Setup.SampleAll | cmd/lerobot/setup.go:464-480 | the per-motor tick loop keeps the key sets and min <= cur <= max, and the new bounds are WidenAll of the old |
| Setup.TickStep | cmd/lerobot/setup.go:466-479 | one motor's update keeps the keys and order and widens that motor only |
| Setup.BuildCalibration | cmd/lerobot/setup.go:200-208 | exactly the motors are calibrated, motor i with ID i + 1 and its recorded min and max |
| Setup.NonNegativeWidths | cmd/lerobot/setup.go:200-208 | every built range has a non-negative width |
| Setup.Recorder.Seed | cmd/lerobot/setup.go:169-180 | each motor starts seeded with its first position, not quitting |
| Setup.Recorder.Tick | cmd/lerobot/setup.go:462-482 | the bounds become WidenAll of the old bounds with the tick's readings |
| Setup.Recorder.Update | cmd/lerobot/setup.go:453-486 | "enter", "q", "ctrl+c" quit with bounds kept; other keys and messages change nothing; a tick widens and asks for the next tick |
| Setup.Recorder.Calibrate | cmd/lerobot/setup.go:200-208 | the calibration from the recorded bounds, ID i + 1, non-negative widths |
| Setup.TicksOfWidthTail | cmd/lerobot/setup.go:453-486 | dropping the first message keeps every tick one reading per motor |
| Setup.TicksBeforeQuit | cmd/lerobot/setup.go:453-486 | the ticks processed before the first quit key, each one reading per motor |
| Setup.ReplayStep | cmd/lerobot/setup.go:462-482 | one more sample widens the replayed bounds with it |
| Setup.ReplaysStep | cmd/lerobot/setup.go:462-482 | one more tick maps to WidenAll of the replayed bounds |
| Setup.TicksBeforeQuitStep | cmd/lerobot/setup.go:453-486 | a tick adds its readings, a quit key ends the list, and other messages are ignored |
| Setup.SeenStep | cmd/lerobot/setup.go:453-486 | processing one non-quit message extends the consumed ticks consistently |
| Setup.SeenDone | cmd/lerobot/setup.go:453-486 | at a quit key or the end, the consumed ticks are all TicksBeforeQuit |
| Setup.RecordCalibration | cmd/lerobot/setup.go:169-208 | seeding, processing messages until quit and building give motor i the ID i + 1 and the range Replays records for it |
| Setup.CalibrateArm | cmd/lerobot/setup.go:136-213 | a failed connection is "Error connecting to arm: " + error and a failed session "Error running calibration: " + error (both exit with status 1); it succeeds iff neither fails, with IDs 1..6 in canonical order and the recorded ranges |
| RobotInfo.RoleOf | cmd/robot-info/main.go:192-266 | "leader" or "follower" iff servo 1 was found, the wiggle worked and that option was chosen; otherwise no role |
| RobotInfo.IdentifyArm | cmd/robot-info/main.go:192-266 | the identification computes RoleOf: a form error or "skip" gives no role |
| RobotInfo.AssignRoles | cmd/robot-info/main.go:46-61 | the loop with its early break computes Assigned: each answer overwrites its role, stopping once both are set |
| RobotInfo.Run | cmd/robot-info/main.go:29-112 | no arm or no role exits 1; the file is saved iff both ports are set, with the fixed calibration paths; a failed save exits 1 |
| RobotInfo.AssignedFromArms | cmd/robot-info/main.go:46-61 | an assigned port is the port of an arm named for that role |
| RobotInfo.AssignedNotMissed | cmd/robot-info/main.go:46-61 | with non-empty ports, a role some arm was named for ends up assigned |
| RobotInfo.SingleLeader | cmd/robot-info/main.go:46-61 | a single arm named leader gives the leader port |
| TeleopView.Recent | cmd/lerobot/teleoperate.go:59-64 | the last min(n, 5) messages, as a suffix of the whole log |
| TeleopView.RecentAppend | cmd/lerobot/teleoperate.go:59-64 | trimming after each append keeps the same messages as trimming once at the end |
| TeleopView.ChartSize | cmd/lerobot/teleoperate.go:95-109 | 80 by 20 when the size is unknown; else (max(40, w - 4), max(10, h - 13)) |
| TeleopView.StillReadings | cmd/lerobot/teleoperate.go:66-77 | the same reading again, or one that only drops motors, is not movement |
| TeleopView.MovingReadings | cmd/lerobot/teleoperate.go:66-77 | a first reading, a new motor or a changed position is movement |
| TeleopView.View.Initial | cmd/lerobot/teleoperate.go:116-132 | unknown size, an 80 by 20 chart, no logs, nothing drawn |
| TeleopView.View.AddLog | cmd/lerobot/teleoperate.go:59-64 | the logs become the five most recent of all messages, ending with the new one |
| TeleopView.View.HasMovement | cmd/lerobot/teleoperate.go:66-77 | true iff there is no previous reading or some motor is new or moved |
| TeleopView.View.Update | cmd/lerobot/teleoperate.go:142-177 | a resize sets size and chart; "q"/"ctrl+c" quit; a state is drawn and remembered only when it has positions that moved; a log message is added |
| TeleopView.ExecuteChecks | cmd/lerobot/teleoperate.go:232-250 | passes iff the configuration loads, both ports are set and both arms calibrated, with the message of each refusal |
| TeleopView.ExecuteAfterSetup | cmd/lerobot/teleoperate.go:232-250 | ports saved without calibration are refused; six-motor calibrations are accepted |
| TeleopCli.CalibrationPathFor | cmd/lerobot-teleoperate/main.go:269-272 | the path is "calibration/" + id + ".json" |
| TeleopCli.ResolvePorts | cmd/lerobot-teleoperate/main.go:254-292 | the file is needed iff a port flag is empty, and failing to load it is then an error; each empty port takes its port and calibration from the file, each set one keeps the flag and its default path |
| TeleopCli.DefaultPathsMatchSavedPaths | cmd/lerobot-teleoperate/main.go:256-272 | the default IDs give the calibration paths robot-info saves |

## Left out

- The feetech serial bus is external: `NewBus`, `Scan`, servo reads and writes, torque enable and disable, the sync read and sync write. Their results are inputs.
- `Arm.Enable` and `Arm.Disable` only delegate to the bus. Their outcomes are inputs to `Controller.Begin` and `Controller.Shutdown`.
- Concurrency and timing are not modelled: goroutines, the ticker cadence, the mutex, context cancellation. The controller loop is a sequence of ticks, then cancellation.
- Log timestamps and their `15:04:05` format are not modelled. A log line is a timestamp input plus its text.
- `fmt` formatting of error values inside log text is not modelled. The `%v` of an error is its message; the `[..]` of an error list is brackets around the messages joined by spaces.
- Terminal rendering is not modelled: `View`, `renderLegend`, styles, the bubbletea program loop, the chart drawing and the form prompts. The chart is the sequence of readings pushed to it.
- File and JSON I/O are not modelled: `LoadCalibration`, `LoadConfig`, `Save`, `saveConfig`, `loadConfig`. Loading is an input `Result`; saving is an input `Outcome`.
- `findArms` is not modelled: port enumeration and Bluetooth filtering. The input is the list of found arms with their scans.
- The wiggle motion and its sleeps are not modelled. The wiggle is an input `Outcome`.
- Floating point is not modelled: positions are real numbers, so the round trip is exact rather than within ±1.
- Arm construction takes a port and an already-loaded calibration. The source passes a config with a calibration path that `NewArm` does not take.
- `cmd/lerobot/teleoperate.go` builds a `teleop.Config` with fields that type lacks. Controller construction is modelled once, as `Teleop.NewController`.
- `Teleop.NewController`: the outcome of closing the leader after a follower failure is ignored, as in the source.
- `Setup.CalibrateArm`: the errors of the seeding reads are ignored in the source. The model takes the first positions as an input.
- The errors of the program loop, and `log.Fatalf` exits, are not modelled.
- `Teleop.Controller.Start`: the panic of `time.NewTicker` for a rate above 10^9 Hz ends the process. The model returns it as the outcome `TickerPanic` with `running` still set, and does not model the unwinding.
- `TeleopCli.ResolvePorts`: the source prints its error and calls `os.Exit(1)`. The model returns the message as `Err` and does not follow the exit of the process.
- `TeleopView.ExecuteChecks`: the source prints each refusal and calls `os.Exit(1)`. The model returns the message as `Fail` and does not follow the exit of the process.
- Go's `int` is 64 bits wide, so `RangeMax - RangeMin` and `raw - RangeMin` in pkg/robot/calibration.go can overflow. The model uses unbounded integers and does not capture that overflow.
- `Setup.CalibrateArm`: its two `os.Exit(1)` paths are returned as `Err`. The model does not follow the exit of the process, and the outcome of the session is an input.
- `Setup.IdentifyArm`: an aborted role form exits with status 0, as the code does. It is not an error.
- The source iterates Go maps in unspecified order. The model does not assume unique calibration IDs. It proves the results do not depend on the order once the IDs are unique (`ReadingIsDetermined`, `CommandIsDetermined`, `ByID`).
- `cmd/lerobot/main.go` and `doc.go` are not part of this model. They hold only command dispatch and package documentation.
