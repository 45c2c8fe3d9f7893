# Wearm robot arm: firmware and host core in Dafny

Wearm is a six-servo desktop robot arm. The system has two halves.

- **STM32 firmware.** It receives text commands over a serial line, one character per interrupt. It turns `id:angle:speed` fields into servo targets and moves every servo one pulse unit at a time until all have arrived, or until a `stop` line freezes them. It can also play a canned ten-pose pick-and-place sequence. A small character ring buffer completes it.
- **Python host.** It builds the same `id:angle:speed` command lines and writes them to the port. It converts servo angles to and from the joint angles of a kinematic chain, and wraps an external inverse-kinematics solver in a refinement loop. It validates user input and runs the automatic pick-and-place state machine.

The model has one module per source file:

| module | models |
|---|---|
| `Fifo` | `fifo.c` / `fifo.h` |
| `Servo` | `servo.c` |
| `Sequencer` | `automation.c` |
| `CommandLine` | `main.c` |
| `Config` | `config.py` |
| `Validation` | `utils.py` |
| `Communication` | `communication.py` |
| `Kinematics` | `kinematics.py` |
| `Automation` | `automation.py` |

Three shared modules support them:

- `Outcomes` holds the Option and Result types.
- `Text` models `%d` printing, `sscanf("%d")`, `strtok` and `str.join`.
- `Protocol` models the `id:angle:speed` wire format shared by both sides.

A last module, `Link`, joins the two halves. A command built by `create_position_command` and framed by `send_command` goes through the receive interrupt and `process_command` to `servo_cmd_angle`. There it becomes exactly one `servo_write_angle(i, round(angle_i), speed)` per field.

The code's form is kept:

- Mutable C structs and globals are classes over arrays: the ring buffer, the servo table and the receive buffers.
- Python objects with mutable fields are classes: `SerialCommunicator`, `AutomationController` and `PerformanceMonitor`.
- Loops are methods with invariants, each proved against a specification function.
- Pure maps and validators are functions with lemmas.

Interrupts, threads and port failures are inputs to the methods:

- `stopAt` gives the tick or the action at which a stop request is seen.
- `fails` / `sendFails` make a port write raise.
- `stops` gives the stop oracle of each servo run.
- The numerical library behind the kinematics is the parameter `Chain`.

Two behaviours of the worker that are easy to misread:

- **A cycle that fails without a stop ends the task COMPLETED.** The worker breaks out of the task loop and still ends COMPLETED, after returning home when that is enabled (`automation.py:152-170`). `Automation.AutomationController.ExecuteAutoTask` states this.
- **Each move is one inverse-kinematics call and one send** (`automation.py:237-256`): the arm is commanded straight to the solved angles.

## Model

| member | source | states |
|---|---|---|
| `Text.NatToStringDigits` | Wearm/Core/Src/automation.c:89 | `%d` of a natural number is a non-empty digit string whose decimal value is that number, at most 1 + log10 long |
| `Text.ScanIntToString` | Wearm/Core/Src/servo.c:210 | `%d` scanning reads back exactly the integer `%d` printed, stopping at the first non-digit, for negative numbers too |
| `Text.ScanNegative` | Wearm/Core/Src/servo.c:210 | a `-` followed by digits scans as the negated digit value, with the rest left unread |
| `Text.ScanNonNegative` | Wearm/Core/Src/servo.c:210 | a run of digits scans as its decimal value, with the rest left unread |
| `Text.Tokens` | Wearm/Core/Src/servo.c:207 | every token `strtok` yields is non-empty and free of the separator |
| `Text.TokensJoin` | Wearm/Core/Src/servo.c:207 | `strtok` over non-empty, separator-free pieces joined by the separator gives back exactly those pieces, in order |
| `Text.JoinSnoc` | Wearm/Core/Src/automation.c:90-96 | appending one more piece to a join appends the separator and that piece |
| `Protocol.ScanFormatField` | Wearm/Core/Src/servo.c:210 | `sscanf("%d:%d:%d")` of a field printed with `%d:%d:%d` recovers its id, angle and speed |
| `Protocol.FormatFieldShape` | Wearm/Core/Src/automation.c:89 | a printed field is non-empty, comma-free, starts with a digit or sign and holds only digits, signs and colons |
| `Protocol.ScanAllFormatted` | Wearm/Core/Src/servo.c:207-211 | scanning the printed fields one by one recovers every field, in order |
| `Protocol.ParseFormatCommand` | communication.py:104-106 | tokenising and scanning a host-built command line recovers every field, in order |
| `Protocol.FormatCommandShape` | communication.py:106 | a host-built command line is non-empty, starts with a digit or sign and holds only digits, signs, colons and commas |
| `Protocol.FormatCommandSnoc` | Wearm/Core/Src/automation.c:90-96 | the line of one more field is the previous line, one comma and the new field |
| `Protocol.FormatFieldLength` | Wearm/Core/Src/automation.c:83-89 | a field with a one-digit id and two `uint16_t` values prints in at most 13 characters |
| `Fifo.NextPos` | Wearm/Core/Src/fifo.c:16-18 | the next slot stays in `[0, 1024)`: one further, or 0 after the last slot |
| `Fifo.WindowPush` | Wearm/Core/Src/fifo.c:30-31 | writing at `rear` and advancing it appends the character to the stored sequence, unless full |
| `Fifo.WindowPop` | Wearm/Core/Src/fifo.c:40-41 | advancing `front` of a non-empty queue drops exactly the oldest character |
| `Fifo.WindowAt` | Wearm/Core/Src/fifo.c:47-48 | the k-th stored character sits k slots after `front`, wrapping around |
| `Fifo.WalkStep` | Wearm/Core/Src/fifo.c:47 | walking from `front` meets `rear` exactly after the stored count of slots |
| `Fifo.Queue.Count` | Wearm/Core/Src/fifo.c:21-23 | the count `(rear - front) mod 1024` is at most 1023, and zero exactly when `front == rear` |
| `Fifo.Queue.constructor` | Wearm/Core/Inc/fifo.h:10-14 | a fresh 1024-slot queue holds nothing |
| `Fifo.Queue.Init` | Wearm/Core/Src/fifo.c:5-8 | both indices return to 0 and the queue is empty |
| `Fifo.Queue.IsEmpty` | Wearm/Core/Src/fifo.c:11-13 | returns 1 exactly when nothing is stored, else 0 |
| `Fifo.Queue.IsFull` | Wearm/Core/Src/fifo.c:21-23 | returns 1 exactly when 1023 characters are stored (one free slot), else 0 |
| `Fifo.Queue.Enqueue` | Wearm/Core/Src/fifo.c:26-33 | full: returns 0 and changes nothing; otherwise appends `v` to the contents, writes it at the old `rear`, advances `rear`, returns 1 |
| `Fifo.Queue.Dequeue` | Wearm/Core/Src/fifo.c:36-43 | empty: returns 0 and leaves the queue and `*v` alone; otherwise hands out the oldest character, removes it, advances `front`, returns 1 |
| `Fifo.Queue.Print` | Wearm/Core/Src/fifo.c:46-51 | the walk from `front` to `rear` visits exactly the stored characters, oldest first |
| `Fifo.FifoOrder` | Wearm/Core/Inc/fifo.h:36-50 | two characters enqueued into a fresh queue dequeue in the same order, and a third dequeue returns 0 |
| `Servo.AngleToPulseExact` | Wearm/Core/Src/servo.c:89-94 | for a calibrated servo the 32-bit and 16-bit truncations never fire: the pulse is `min` plus the exact scaled quotient, which lies in `[0, max - min]` |
| `Servo.AngleToPulseRange` | Wearm/Core/Src/servo.c:89-94 | the pulse lies in `[min, max]`; a zero angle range gives `min` |
| `Servo.AngleToPulseEnds` | Wearm/Core/Src/servo.c:94 | `angle_min` maps to `min` and `angle_max` to `max` |
| `Servo.AngleToPulseClamps` | Wearm/Core/Src/servo.c:86-87 | angles below or above the range map like the range's ends |
| `Servo.AngleToPulseMonotone` | Wearm/Core/Src/servo.c:84-95 | a larger angle never gives a smaller pulse |
| `Servo.WriteServo` | Wearm/Core/Src/servo.c:109-116 | the pulse is untouched and becomes `begin`; a target inside `[min, max]` is kept, one below `min` becomes `min` (or `max` when `max < min`, the second test winning), one above `max` becomes `max`; a zero delay becomes 1; nothing else changes |
| `Servo.Step` | Wearm/Core/Src/servo.c:144-147 | a servo at its target is unchanged; otherwise only the pulse moves, one unit closer, never past the target |
| `Servo.HardwarePulse` | Wearm/Core/Src/servo.c:125-130 | the value is truncated to `uint16_t`, then below 500 becomes 500, above 2500 becomes 2500, and inside passes unchanged; so every value reaching the timer lies in `[500, 2500]` |
| `Servo.NegativePulseWraps` | Wearm/Core/Src/servo.c:149-156 | a trimmed pulse below 0 wraps in the `uint16_t` parameter and reaches the timer as 2500, the far end, not 500 |
| `Servo.TickRemaining` | Wearm/Core/Src/servo.c:184-190 | each tick brings a moving servo exactly one tick closer to rest under its delay schedule, and leaves one at rest alone |
| `Servo.TickDecreases` | Wearm/Core/Src/servo.c:181-198 | a pass in which some servo still moves lowers the table's total remaining ticks, so `servo_run` ends |
| `Servo.Freeze` | Wearm/Core/Src/servo.c:172-175 | after the stop branch every servo is at rest with its target set to its current pulse |
| `Servo.InitServo` | Wearm/Core/Src/servo.c:41-49 | the calibration is stored, delay 1, trim 0, and `pulse == begin == end == angle_to_pulse(initial)` |
| `Servo.InitialCalibrated` | Wearm/Core/Src/servo.c:62-80 | each servo set up from `servo_params` has `500 <= min <= max <= 2500`, an ordered angle range and its pulse in range |
| `Servo.TickTracks` | Wearm/Core/Src/servo.c:182-192 | a pass keeps every servo between its start and target and the compare register equal to its last trimmed pulse |
| `Servo.FreezeRan` | Wearm/Core/Src/servo.c:170-178 | freezing a tracked table ends the run at rest, each servo having moved only toward its target |
| `Servo.RestRan` | Wearm/Core/Src/servo.c:193-198 | a tracked table found at rest has reached every target and a further pass changes nothing |
| `Servo.ServoBank.constructor` | Wearm/Core/Src/servo.c:9-17 | the static table starts with every field zero and no stop request |
| `Servo.ServoBank.Init` | Wearm/Core/Src/servo.c:37-54 | an invalid id changes nothing; otherwise the entry becomes the calibrated rest state and its pulse is sent to the timer |
| `Servo.ServoBank.InitAll` | Wearm/Core/Src/servo.c:56-82 | every servo is set up from its `servo_params` row, at rest, calibrated with `500 <= min <= max <= 2500` |
| `Servo.ServoBank.Write` | Wearm/Core/Src/servo.c:105-117 | an invalid id changes nothing; otherwise only that entry changes, as `WriteServo` says |
| `Servo.ServoBank.WriteAngle` | Wearm/Core/Src/servo.c:97-103 | an invalid id changes nothing; otherwise the entry is written with its own angle-to-pulse map of the angle |
| `Servo.ServoBank.Read` | Wearm/Core/Src/servo.c:119-123 | the current pulse, or 0 for an invalid id |
| `Servo.ServoBank.StepServo` | Wearm/Core/Src/servo.c:141-150 | an invalid id or a servo at rest changes nothing; otherwise one step and the trimmed pulse sent to the timer |
| `Servo.ServoBank.Adjust` | Wearm/Core/Src/servo.c:152-159 | stores the trim, sends the trimmed pulse and stops the servo at its current pulse |
| `Servo.ServoBank.FreezeAll` | Wearm/Core/Src/servo.c:172-175 | every target becomes the current pulse |
| `Servo.ServoBank.TickAll` | Wearm/Core/Src/servo.c:181-192 | one pass applies the tick to every servo; `running` is set exactly when some servo was still moving; compare registers change only for servos that moved |
| `Servo.ServoBank.TickOne` | Wearm/Core/Src/servo.c:184-191 | a moving servo steps when the tick is a multiple of its delay; only its entry and compare register can change |
| `Servo.ServoBank.TrackedTick` | Wearm/Core/Src/servo.c:181-198 | a pass inside a run keeps the run's invariant; a pass that moves nothing ends at the targets; otherwise the remaining ticks strictly drop |
| `Servo.ServoBank.Run` | Wearm/Core/Src/servo.c:161-201 | clears the stop flag; ends at rest with each servo moved only toward its target; without a stop every servo reaches its target; a stop at tick k returns k; the tick count is bounded |
| `Servo.ServoBank.Report` | Wearm/Core/Src/servo.c:216-222 | the reply is `id:pulse:1` for all six servos in id order, comma-separated, then `OK` |
| `Servo.ServoBank.WriteField` | Wearm/Core/Src/servo.c:209-211 | one scanned field is written with its id cast to `uint8_t` and its angle and delay to `uint16_t` |
| `Servo.ServoBank.WriteFields` | Wearm/Core/Src/servo.c:207-212 | every token that scans completely is written, in order |
| `Servo.ServoBank.CmdAngle` | Wearm/Core/Src/servo.c:203-223 | an empty argument changes nothing; otherwise all parsed fields are written in order and the servos run to rest (to the written targets without a stop); the reply reports every pulse |
| `Sequencer.PoseTableShape` | Wearm/Core/Src/automation.c:16-40 | ten six-angle poses starting and ending at home; grasp and release change only the gripper (closing, then opening) |
| `Sequencer.ApplyPose` | Wearm/Core/Src/automation.c:101 | applying a pose's fields in order writes every servo once, with its own angle, at the common speed |
| `Sequencer.BuildPoseCommand` | Wearm/Core/Src/automation.c:79-97 | six fields for ids 0..5 in order, single commas, no trailing comma; at most 83 characters, so the 128-byte buffer never overflows; parses back to the pose's fields |
| `Sequencer.MoveToPose` | Wearm/Core/Src/automation.c:79-102 | the pose's command goes to `servo_cmd_angle`; every servo moves only toward its pose target, and reaches it without a stop |
| `Sequencer.PoseTarget` | Wearm/Core/Src/servo.c:101 | where a pose move leaves a servo: inside `[min, max]`, and the angle's own pulse for a calibrated servo |
| `Sequencer.MoveEffect` | Wearm/Core/Src/automation.c:60 | a pose move keeps every calibration, and an uninterrupted one leaves each servo at its pose target |
| `Sequencer.PlaySequence` | Wearm/Core/Src/automation.c:56-62 | every pose is sent in order at the given speed; calibrations are kept; without a stop in the last move the arm ends at the last pose |
| `Sequencer.ExecuteTask` | Wearm/Core/Src/automation.c:47-71 | task 0 sends the ten poses of `pick_and_place_sequence` in order at speed 2 and ends at home without a final stop; any other task sends nothing and changes nothing |
| `CommandLine.UpToNul` | Wearm/Core/Src/main.c:91 | the C string of a buffer: the characters before the first NUL, and that NUL when there is one |
| `CommandLine.UpToNulTerminated` | Wearm/Core/Src/main.c:91-100 | a line followed by its terminator reads back as exactly that line, whatever follows |
| `CommandLine.Receiver.constructor` | Wearm/Core/Src/main.c:52-55 | the zero-initialised globals: nothing pending, empty line, no new command |
| `CommandLine.Receiver.ClearRx` | Wearm/Core/Src/main.c:70-73 | nothing is pending afterwards |
| `CommandLine.Receiver.CopyLine` | Wearm/Core/Src/main.c:100 | `line_buffer` then holds exactly the copied line |
| `CommandLine.Receiver.ReceiveChar` | Wearm/Core/Src/main.c:79-115 | non-terminators are kept while the index is below 127, dropped after; a terminator on an empty line does nothing; a `stop` line raises the stop flag only; any other line goes to `line_buffer` and sets the new-command flag |
| `CommandLine.Receiver.ReceiveFrame` | Wearm/Core/Src/main.c:87-112 | a frame `text` + CR + LF on an idle receiver yields one line, the first 127 characters of `text`; the LF adds nothing |
| `CommandLine.Dispatch` | Wearm/Core/Src/main.c:121-152 | empty is ignored; exactly `beep` beeps; a `run ` prefix followed by a number N runs task N when `0 <= N < TASK_COUNT` and reports N invalid otherwise, and without a number finds none; anything else is a manual command |
| `CommandLine.DispatchHostCommand` | Wearm/Core/Src/main.c:146-151 | every command line the host builds is dispatched as a manual servo command |
| `CommandLine.DispatchRunId` | Wearm/Core/Src/main.c:133-144 | `run N` starts task N when `0 <= N < TASK_COUNT` and reports it invalid otherwise |
| `CommandLine.ProcessCommand` | Wearm/Core/Src/main.c:121-152 | takes the dispatched action; only a manual command or task 0 moves the servos; a manual command without a stop leaves each servo at its written target |
| `CommandLine.MainLoopStep` | Wearm/Core/Src/main.c:225-229 | a pending line is processed exactly once and its flag cleared; without one nothing moves |
| `CommandLine.DeliverCommand` | Wearm/Core/Src/main.c:79-115 | a host command line with CR LF that fits the buffer reaches `servo_cmd_angle` whole, and every host field is written in order |
| `Config.LimitsConsistent` | config.py:21-31 | every default angle lies in its servo's range, and every range has min below max |
| `Config.GripperInRange` | config.py:51-52 | open (100) and close (175) lie in the gripper's range, open below close |
| `Config.AgreesWithFirmware` | config.py:24-31 | the host's limits and default angles equal the firmware's `servo_params` and its home pose |
| `Config.StepsDistinct` | config.py:106-118 | the eleven task steps are distinct and cover the enumeration |
| `Validation.ValidatePosition` | utils.py:253-272 | accepts exactly the three-coordinate points in the workspace box; otherwise reports wrong arity, then x, then y, then z, the first violation |
| `Validation.DefaultTargetValid` | config.py:38 | the default target passes `validate_position` |
| `Validation.ValidateServoAngle` | utils.py:275-290 | accepts exactly an id in `[0, 6)` with the angle in that servo's inclusive limits; otherwise a bad id, or the limits violated |
| `Validation.DefaultAnglesValid` | config.py:21 | every default angle passes `validate_servo_angle` |
| `Validation.ValidateTaskPoints` | utils.py:293-317 | accepts exactly non-empty equal-length lists of workspace points; reports no pickup, no place, unequal counts, then the first bad pickup, then the first bad place, with 1-based indices |
| `Validation.PerformanceMonitor.constructor` | utils.py:392-393 | no timers |
| `Validation.PerformanceMonitor.StartTimer` | utils.py:395-397 | records the time under the name, replacing an earlier start, and keeps every other entry |
| `Validation.PerformanceMonitor.EndTimer` | utils.py:399-405 | an unknown name gives 0 and no change; a known one gives the elapsed time and is removed |
| `Communication.RoundHalfEven` | communication.py:94 | `round` gives an integer within 0.5, the even one on a tie, and the value itself for whole numbers |
| `Communication.RoundInRange` | communication.py:103 | rounding stays in any range with integer ends |
| `Communication.BuildCommand` | communication.py:99-106 | one `i:round(angle_i):speed` field per index, joined by commas; a non-empty command parses back to those fields |
| `Communication.CreateServoCommand` | communication.py:89-95 | one field per given angle in index order; empty input gives an empty command; parses back to the fields |
| `Communication.CreatePositionCommand` | communication.py:97-106 | exactly 5 fields (ids 0..4) with the gripper excluded, 6 otherwise; too few angles are an index error; parses back to the fields |
| `Communication.CreateGripperCommand` | communication.py:108-110 | parses back to the single field `5:round(angle):speed` |
| `Communication.SerialCommunicator.constructor` | communication.py:16-21 | a communicator in the given connection state that has written nothing |
| `Communication.SerialCommunicator.SendCommand` | communication.py:62-72 | not connected: fails without writing; a raising write fails without writing; otherwise writes the command followed by CR LF |
| `Kinematics.DegreesRadians` | kinematics.py:105 | `np.degrees` and `np.radians` are inverse to each other |
| `Kinematics.ServoToChain` | kinematics.py:99-115 | ten chain angles, with the fixed links 1, 3, 5, 7 and 9 at 0 |
| `Kinematics.ChainToServo` | kinematics.py:117-130 | six servo angles, with the gripper passed through |
| `Kinematics.ChainZero` | kinematics.py:105-113 | 190 degrees for servo 0 and 130 for the others is the chain's zero; servos 1 and 4 turn the other way |
| `Kinematics.ServoChainRoundTrip` | kinematics.py:104-129 | servo angles to the chain and back return the five arm angles followed by the given gripper |
| `Kinematics.ChainServoRoundTrip` | kinematics.py:122-130 | a chain vector with zero fixed links survives the trip to servo angles and back |
| `Kinematics.Clamped` | kinematics.py:169-171 | angles 0..4 are clamped into their limits and kept when inside; the gripper is untouched |
| `Kinematics.ClampToLimits` | kinematics.py:169-171 | the in-place clamp loop computes `Clamped` |
| `Kinematics.MaxAbsDiff` | kinematics.py:183 | bounds every coordinate's absolute difference |
| `Kinematics.MaxAbsDiffAttained` | kinematics.py:183 | some coordinate differs by exactly the maximum |
| `Kinematics.AttemptShape` | kinematics.py:162-171 | a pass that does not raise gives six angles within the limits, with the current gripper angle |
| `Kinematics.RefinesSnoc` | kinematics.py:186-188 | a pass seeded from the previous clamped result extends the trace of passes, and seeds the next pass from its own result |
| `Kinematics.ConvergedSnoc` | kinematics.py:182-185 | a new pass converges exactly when it follows another pass and moved every angle by less than 0.001 |
| `Kinematics.FirstMinimumSnoc` | kinematics.py:177-179 | the first pass, or a strictly smaller error, becomes the best; otherwise the best stays |
| `Kinematics.ContinueAnswer` | kinematics.py:155-192 | from any trace of passes within the limits, the loop answers Failed or a pass of six angles within the limits with the current gripper angle |
| `Kinematics.IkAnswerInLimits` | kinematics.py:140-192 | with six current angles and a three-coordinate target, the solver fails or answers angles within the limits with the current gripper angle |
| `Kinematics.ContinueStep` | kinematics.py:155-190 | a pass that neither stops the loop nor raises is recorded, and becomes the best exactly when it is the first or strictly better |
| `Kinematics.InverseKinematics` | kinematics.py:140-192 | answers `IkAnswer`: fewer than five current angles is an index error, a target without three coordinates a value error, and a raising pass a failure; otherwise: at most 10 passes, each seeded from the previous clamped result, stopping at the first convergence; answers the first pass of least error, within the limits, with the current gripper angle |
| `Kinematics.Refine` | kinematics.py:155-190 | the pass loop computes `Continue` from the empty trace, and keeps the trace facts `InverseKinematics` states |
| `Kinematics.KeepBest` | kinematics.py:177-179 | the first pass, or one of strictly smaller error, becomes the best with its error and angles; otherwise all three stay |
| `Kinematics.CheckConvergence` | kinematics.py:182-185 | true exactly when the new pass is not the first and moved every angle by less than 0.001 |
| `Kinematics.SolvePass` | kinematics.py:162-171 | one pass computes `Attempt`: solve, map back with the gripper, clamp |
| `Automation.ProgressBounds` | automation.py:299-302 | progress is between 1 and the task count while running or paused, and 0 otherwise |
| `Automation.StepTarget` | automation.py:221-235 | a move step's target, when its point has three coordinates, has three coordinates |
| `Automation.StepTargetsVertical` | automation.py:227-235 | the moves up from a point go to the same target as the moves above it; above a point differs from at it only in height, by the offset divided by 1000 |
| `Automation.CycleOrder` | automation.py:183-193 | the cycle's nine steps are the first nine task steps in declaration order, followed by return-home and complete |
| `Automation.AutomationController.constructor` | automation.py:15-45 | no points, IDLE, index 0, first step, flags clear, the default parameters and home angles |
| `Automation.AutomationController.AddPickupPoint` | automation.py:47-49 | appends the point to the pickup list |
| `Automation.AutomationController.AddPlacePoint` | automation.py:51-53 | appends the point to the place list |
| `Automation.AutomationController.RemovePickupPoint` | automation.py:55-58 | deletes only that index; out of range changes nothing |
| `Automation.AutomationController.RemovePlacePoint` | automation.py:60-63 | deletes only that index; out of range changes nothing |
| `Automation.AutomationController.UpdatePickupPoint` | automation.py:65-68 | replaces only that index; out of range changes nothing |
| `Automation.AutomationController.UpdatePlacePoint` | automation.py:70-73 | replaces only that index; out of range changes nothing |
| `Automation.AutomationController.ClearAllPoints` | automation.py:75-78 | both lists become empty |
| `Automation.AutomationController.UpdateParameters` | automation.py:80-88 | each present key replaces its parameter and a missing one keeps it; `height_offset` sets both offsets |
| `Automation.AutomationController.UpdateStatus` | automation.py:294-302 | reports the state, the step, the progress and the task count |
| `Automation.AutomationController.StartTask` | automation.py:90-113 | refuses with no state change when a list is empty, the counts differ or the port is closed, in that order; otherwise RUNNING, index 0, first step, both flags cleared, one report |
| `Automation.AutomationController.PauseTask` | automation.py:115-125 | RUNNING and PAUSED swap together with the pause flag; other states stay; answers whether now PAUSED |
| `Automation.AutomationController.StopTask` | automation.py:127-131 | always sets the stop flag and IDLE, and reports |
| `Automation.AutomationController.PollStop` | automation.py:196-204 | the stop flag is seen set exactly when it was set or the stop request lands at this check |
| `Automation.AutomationController.MoveToPositionAuto` | automation.py:237-256 | the solver's answer is `IkAnswer` of the target and the current angles; success exactly when it is solved and the send succeeds; success copies only angles 0..4 and writes those five fields; failure changes nothing |
| `Automation.AutomationController.SendArmAngles` | automation.py:241-249 | the five arm fields are written, and on success only angles 0..4 are copied |
| `Automation.AutomationController.ControlGripperAuto` | automation.py:258-274 | on success the gripper field is written and only angle 5 is recorded; failure changes nothing |
| `Automation.AutomationController.ReturnToHomePosition` | automation.py:276-292 | on success all six default angles are written and become current; failure changes nothing |
| `Automation.AutomationController.RunStep` | automation.py:183-193 | step 3 closes the gripper and step 7 opens it, each writing its gripper line; the other steps solve for `StepTarget` and write the five solved angles; the step succeeds exactly when the port is open, the send succeeds and the target is reachable; a failed step changes nothing |
| `Automation.AutomationController.ExecuteSingleTask` | automation.py:181-219 | the nine steps in order, each after a stop check, ending at the first stop or failure; one line per step that succeeded; a failure without a stop is the last step begun, failing for a closed port, a failed send or an unreachable target; a full cycle writes nine lines and ends with the gripper open |
| `Automation.AutomationController.CycleStep` | automation.py:195-217 | a stop check, which reports IDLE when it stops; otherwise the step is recorded and reported with the state and progress, then run, succeeding exactly as `RunStep` states |
| `Automation.AutomationController.RunCycles` | automation.py:136-153 | one cycle per pickup point, each after a stop check; without a stop, crash or failure every cycle succeeds with nine actions each; a failed cycle is the one after the successful ones, failing at its last step begun; a missing place point is an ERROR after the cycles before it; one line per action except the failed one |
| `Automation.AutomationController.TaskPass` | automation.py:136-153 | one pass of the task loop: the stop check, the place point lookup (an ERROR when missing), the cycle and the stop check after it; the loop goes on exactly when the cycle succeeded and no stop was seen |
| `Automation.AutomationController.ExecuteAutoTask` | automation.py:133-179 | a stop ends IDLE; a failed home send ERROR; otherwise COMPLETED, even after a failed cycle; without a stop, crash or failure every cycle ran; the last report is the final state |
| `Automation.AutomationController.FinishTask` | automation.py:155-179 | the return home when enabled and not stopped, then the terminal state and the final report |
| `Link.ApplyAngleFields` | communication.py:102-104 | the host's fields, applied in order by the firmware, write each addressed servo once with its own rounded angle, and no other |
| `Link.ApplyFieldInRange` | Wearm/Core/Src/servo.c:209-211 | a field whose numbers survive the `uint8_t`/`uint16_t` casts writes exactly the servo it names |
| `Link.AngleCommandLength` | communication.py:97-106 | a position command for at most six servos fits the firmware's 128-byte receive buffer with its NUL |
| `Link.DeliverPosition` | communication.py:62-72 | when the send succeeds every addressed servo settles at its rounded angle's pulse and the others keep their targets; when it fails the arm is untouched |

## Left out

- Hardware is not modelled: timer registers, GPIO (the beep), clocks and peripheral setup. `servo_pulse`'s timer write is kept as a `compare` field that records the clamped value.
- `printf` and `puts` output is not modelled. `fifo_print` returns the characters it visits instead of printing them. `servo_cmd_angle` returns its reply text.
- `LL_mDelay` and the host's `time.sleep` delays are not modelled. Neither is the pause busy-wait at automation.py:200-201: a paused worker is modelled as never waiting.
- `Automation.AutomationController.MoveToPositionAuto`, `SendArmAngles`, `ControlGripperAuto` and `ReturnToHomePosition` assume a non-negative `move_delay` and `grip_delay`. In the source, `time.sleep` raises `ValueError` on a negative delay (automation.py:247, 266, 284). It does so after the line is written and the angles are updated, so the action returns False with those effects done. The model answers success there instead. Its "failure changes nothing" clauses therefore do not cover this case, and neither do the line counts and failure causes built on them (`RunStep`, `CycleStep`, `ExecuteSingleTask`, `TaskPass`, `RunCycles`, and the ERROR after a sent home command in `ExecuteAutoTask`). `UpdateParameters` accepts any real, as the source does.
- Interrupt and thread concurrency is reduced to oracles:
  - a stop request is seen at one chosen check (`stopAt`);
  - the race between the receive interrupt and the main loop on `line_buffer` is not modelled;
  - a stop request arriving while the host is homing is not modelled.
- The worker thread, `connect`, `disconnect`, the receive thread and `get_available_ports` are not modelled. A `SerialCommunicator` is built in a given connection state, and a raising port write is the input `fails`.
- The JSON `save_task_points` and `load_task_points` and the rest of `utils.py` (settings, logging, files, dialogs) are not modelled. So are the UI, the visualisation and `main.py`.
- The kinematic chain itself is not modelled: the ikpy chain construction, `inverse_kinematics_frame`, `forward_kinematics` and the numpy norm. They are the uninterpreted parameter `Chain`.
- Floating point is not modelled: angles and positions are exact reals, so NaN, infinities and rounding error are absent. `np.pi` is its double literal 3.141592653589793.
- `CommandLine.Dispatch`: `run ` without a number is its own outcome (`NoTaskId`). The source reads an uninitialised `task_id` there, whose value cannot be known.
- `Servo.ServoBank.WriteFields`: a field that scans only partly (fewer than three `%d` conversions) is skipped. The source writes it with uninitialised locals, whose values cannot be known.
- `Automation.AutomationController.ExecuteSingleTask`: the contract counts the lines written and names the failing step's cause, but does not list the lines. `RunStep` states each line.
- `Automation.AutomationController.RunCycles`: the per-cycle effects on the angles are not restated. The contract gives the cycle count, the line count and the failing step's cause.
- `Automation.AutomationController.RunStep`: `_move_to_point_above` raises place points by `pickup_height_offset`, as the source does. The model keeps it equal to `place_height_offset`, which is what `update_parameters` ensures.
- Numpy arrays returned by the solver are plain sequences of reals. The rounding of a numpy float by `round` is taken to be Python's round-half-to-even.
