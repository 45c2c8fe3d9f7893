/**
 * The canned pose sequencer of the firmware (`automation.c`): fixed six-angle poses,
 * serialised into the `id:angle:speed` command that `servo_cmd_angle` parses, and
 * played in order by `execute_automation_task`.
 */
module Sequencer {
  import opened Outcomes
  import opened Text
  import opened Protocol
  import opened Servo

  // ---------------------------------------------------------------- the pose table

  const Home: seq<nat> := [190, 130, 130, 130, 130, 130]
  const ReadyToPick: seq<nat> := [190, 110, 180, 150, 130, 100]
  const Pick: seq<nat> := [190, 85, 175, 190, 130, 100]
  const Grasp: seq<nat> := [190, 85, 175, 190, 130, 140]
  const LiftUp: seq<nat> := [190, 110, 180, 150, 130, 140]
  const ReadyToPlace: seq<nat> := [230, 110, 180, 150, 130, 140]
  const Place: seq<nat> := [230, 85, 175, 190, 130, 140]
  const Release: seq<nat> := [230, 85, 175, 190, 130, 100]
  const Retreat: seq<nat> := [190, 130, 130, 130, 130, 130]

  /** `pick_and_place_sequence`. */
  const PickAndPlace: seq<seq<nat>> :=
    [Home, ReadyToPick, Pick, Grasp, LiftUp, ReadyToPlace, Place, Release, Retreat, Home]

  /** `AutomationTask`: the enumerators and their count. */
  const TaskPickAndPlace1: nat := 0
  const TaskDance: nat := 1
  const TaskCount: nat := 2

  /** The speed `execute_automation_task` plays every pose with. */
  const TaskSpeed: nat := 2

  /** A pose: one `uint16_t` angle per servo. */
  predicate IsPose(pose: seq<nat>)
  {
    |pose| == Count && forall i :: 0 <= i < Count ==> pose[i] < U16
  }

  /** Two poses that differ in the gripper (index 5) only. */
  predicate GripperOnly(a: seq<nat>, b: seq<nat>)
    requires IsPose(a) && IsPose(b)
  {
    a[..Count - 1] == b[..Count - 1] && a[Count - 1] != b[Count - 1]
  }

  /** Grasping and releasing move only the gripper; the sequence starts and ends at home. */
  lemma PoseTableShape()
    ensures |PickAndPlace| == 10 && forall k :: 0 <= k < 10 ==> IsPose(PickAndPlace[k])
    ensures PickAndPlace[0] == Home && PickAndPlace[9] == Home
    ensures GripperOnly(Pick, Grasp) && GripperOnly(Place, Release)
    ensures Pick[Count - 1] < Grasp[Count - 1] && Place[Count - 1] > Release[Count - 1]
  {
  }

  /** The fields of the command for one pose: id `i` gets `pose[i]`, all at one speed. */
  function PoseFields(pose: seq<nat>, speed: nat): (fs: seq<Field>)
    requires |pose| == Count
    ensures |fs| == Count
    ensures forall i :: 0 <= i < Count ==> fs[i] == Field(i, pose[i], speed)
  {
    seq(Count, i requires 0 <= i < Count => Field(i, pose[i], speed))
  }

  /** What a pose command asks of every servo: its own angle mapped and written at the common speed. */
  function PoseWrites(ss: seq<ServoState>, pose: seq<nat>, speed: nat): (r: seq<ServoState>)
    requires |ss| == Count && |pose| == Count
    ensures |r| == Count
  {
    seq(Count, i requires 0 <= i < Count => WriteServo(ss[i], AngleToPulse(ss[i], pose[i]), speed))
  }

  /** Applying a pose's fields in order writes every servo once, with its own angle. */
  lemma {:induction false} ApplyPose(ss: seq<ServoState>, pose: seq<nat>, speed: nat)
    requires |ss| == Count && IsPose(pose) && speed < U16
    ensures ApplyFields(ss, PoseFields(pose, speed)) == PoseWrites(ss, pose, speed)
  {
    var fs := PoseFields(pose, speed);
    var k := 0;
    while k < Count
      invariant k <= Count
      invariant forall i :: 0 <= i < k ==> ApplyFields(ss, fs[..k])[i] == PoseWrites(ss, pose, speed)[i]
      invariant forall i :: k <= i < Count ==> ApplyFields(ss, fs[..k])[i] == ss[i]
    {
      assert fs[..k + 1][..k] == fs[..k];
      SmallMod(k, 256);
      SmallMod(pose[k], U16);
      SmallMod(speed, U16);
      k := k + 1;
    }
    assert fs[..Count] == fs;
  }

  // ---------------------------------------------------------------- move_to_pose

  /** The `sprintf`/`strcat` loop of `move_to_pose`: six fields in id order, one comma between neighbours. */
  method BuildPoseCommand(pose: seq<nat>, speed: nat) returns (cmd: string)
    requires IsPose(pose) && speed < U16
    ensures cmd == FormatCommand(PoseFields(pose, speed))
    ensures |cmd| <= 6 * 13 + 5 < 128
    ensures ParseCommand(cmd) == PoseFields(pose, speed)
  {
    ghost var fs := PoseFields(pose, speed);
    cmd := "";
    for id := 0 to Count
      invariant id == 0 ==> cmd == ""
      invariant 0 < id ==> cmd == FormatCommand(fs[..id]) + (if id < Count then [','] else [])
      invariant |cmd| <= 14 * id - (if id == Count then 1 else 0)
    {
      var part := FormatField(Field(id, pose[id], speed));
      FormatFieldLength(Field(id, pose[id], speed));
      if id == 0 {
        assert FormatAll(fs[..1]) == [part];
      } else {
        FormatCommandSnoc(fs, id);
      }
      cmd := cmd + part;
      if id < Count - 1 {
        cmd := cmd + [','];
      }
    }
    assert fs[..Count] == fs;
    ParseFormatCommand(fs);
  }

  /** `move_to_pose`: the pose's command is handed to `servo_cmd_angle`. */
  method MoveToPose(bank: ServoBank, pose: seq<nat>, speed: nat, stopAt: Option<nat>) returns (cmd: string)
    requires IsPose(pose) && speed < U16
    requires bank.Valid() && bank.Ready()
    modifies bank.servos, bank
    ensures bank.Valid() && bank.Ready() && !bank.stopFlag && AtRest(bank.servos[..])
    ensures cmd == FormatCommand(PoseFields(pose, speed)) && ParseCommand(cmd) == PoseFields(pose, speed)
    ensures forall i :: 0 <= i < Count ==>
              Progressed(PoseWrites(old(bank.servos[..]), pose, speed)[i], bank.servos[i])
    ensures stopAt.None? ==> bank.servos[..] == Settle(PoseWrites(old(bank.servos[..]), pose, speed))
  {
    cmd := BuildPoseCommand(pose, speed);
    ApplyPose(bank.servos[..], pose, speed);
    var _ := bank.CmdAngle(cmd, stopAt);
  }

  // ---------------------------------------------------------------- execute_automation_task

  /** The calibration of a servo: what `angle_to_pulse` and `servo_write` read besides the pulse. */
  predicate SameCalibration(a: ServoState, b: ServoState)
  {
    a.min == b.min && a.max == b.max && a.angleMin == b.angleMin && a.angleMax == b.angleMax
  }

  /** Where a servo ends after an uninterrupted move to `angle`: the angle's pulse, clamped into its range. */
  function PoseTarget(s: ServoState, angle: nat): (p: nat)
    ensures s.min <= s.max ==> s.min <= p <= s.max
    ensures Calibrated(s) ==> p == AngleToPulse(s, angle)
  {
    var p := WriteServo(s, AngleToPulse(s, angle), 1).end;
    if Calibrated(s) then AngleToPulseRange(s, angle); p else p
  }

  /** A pose move keeps every calibration, and an uninterrupted one leaves each servo at its pose target. */
  lemma MoveEffect(start: seq<ServoState>, pre: seq<ServoState>, post: seq<ServoState>, pose: seq<nat>, speed: nat)
    requires |start| == |pre| == |post| == Count && IsPose(pose)
    requires forall i :: 0 <= i < Count ==> SameCalibration(pre[i], start[i])
    requires forall i :: 0 <= i < Count ==> Progressed(PoseWrites(pre, pose, speed)[i], post[i])
    ensures forall i :: 0 <= i < Count ==> SameCalibration(post[i], start[i])
    ensures post == Settle(PoseWrites(pre, pose, speed)) ==>
              forall i :: 0 <= i < Count ==> post[i].pulse == PoseTarget(start[i], pose[i])
  {
    forall i | 0 <= i < Count
      ensures SameCalibration(post[i], start[i])
      ensures post == Settle(PoseWrites(pre, pose, speed)) ==> post[i].pulse == PoseTarget(start[i], pose[i])
    {
      var w := PoseWrites(pre, pose, speed)[i];
      assert w == WriteServo(pre[i], AngleToPulse(pre[i], pose[i]), speed);
      assert AngleToPulse(pre[i], pose[i]) == AngleToPulse(start[i], pose[i]);
    }
  }

  /** The command lines of a list of poses at one speed, in order. */
  function PoseCommands(poses: seq<seq<nat>>, speed: nat): (cmds: seq<string>)
    requires forall k :: 0 <= k < |poses| ==> |poses[k]| == Count && IsPose(poses[k])
    requires speed < U16
    ensures |cmds| == |poses|
    ensures forall k :: 0 <= k < |poses| ==> cmds[k] == FormatCommand(PoseFields(poses[k], speed))
  {
    seq(|poses|, k requires 0 <= k < |poses| => FormatCommand(PoseFields(poses[k], speed)))
  }

  /** The step loop of `execute_automation_task`: every pose of `poses` moved to in order at `speed`. */
  method PlaySequence(bank: ServoBank, poses: seq<seq<nat>>, speed: nat, stops: nat -> Option<nat>) returns (sent: seq<string>)
    requires poses != [] && forall k :: 0 <= k < |poses| ==> |poses[k]| == Count && IsPose(poses[k])
    requires speed < U16
    requires bank.Valid() && bank.Ready()
    modifies bank.servos, bank
    ensures bank.Valid() && bank.Ready() && AtRest(bank.servos[..])
    ensures sent == PoseCommands(poses, speed)
    ensures forall i :: 0 <= i < Count ==> SameCalibration(bank.servos[i], old(bank.servos[i]))
    ensures stops(|poses| - 1).None? ==> forall i :: 0 <= i < Count ==>
              bank.servos[i].pulse == PoseTarget(old(bank.servos[i]), poses[|poses| - 1][i])
  {
    sent := [];
    ghost var start := bank.servos[..];
    ghost var cmds := PoseCommands(poses, speed);
    for k := 0 to |poses|
      invariant bank.Valid() && bank.Ready()
      invariant sent == PoseCommands(poses, speed)[..k]
      invariant forall i :: 0 <= i < Count ==> SameCalibration(bank.servos[i], start[i])
      invariant k > 0 ==> AtRest(bank.servos[..])
      invariant k > 0 && stops(k - 1).None? ==> forall i :: 0 <= i < Count ==>
                  bank.servos[i].pulse == PoseTarget(start[i], poses[k - 1][i])
    {
      ghost var before := bank.servos[..];
      var cmd := MoveToPose(bank, poses[k], speed, stops(k));
      PrefixSnoc(cmds, k, cmd);
      sent := sent + [cmd];
      MoveEffect(start, before, bank.servos[..], poses[k], speed);
    }
    assert cmds[..|poses|] == cmds;
  }

  /**
   * `execute_automation_task`: `TASK_PICK_AND_PLACE_1` plays the ten poses in order at speed 2;
   * any other task sends nothing. `stops(k)` is the stop oracle of the `k`-th move's run.
   * Returns the commands sent, in order.
   */
  method ExecuteTask(bank: ServoBank, task: nat, stops: nat -> Option<nat>) returns (sent: seq<string>)
    requires bank.Valid() && bank.Ready()
    modifies bank.servos, bank
    ensures bank.Valid() && bank.Ready()
    ensures task != TaskPickAndPlace1 ==>
              sent == [] && bank.servos[..] == old(bank.servos[..]) && bank.compare == old(bank.compare)
    ensures task == TaskPickAndPlace1 ==> |sent| == |PickAndPlace|
    ensures task == TaskPickAndPlace1 ==> forall k :: 0 <= k < |PickAndPlace| ==>
              sent[k] == FormatCommand(PoseFields(PickAndPlace[k], TaskSpeed))
    ensures task == TaskPickAndPlace1 ==> forall i :: 0 <= i < Count ==>
              SameCalibration(bank.servos[i], old(bank.servos[i])) && bank.servos[i].pulse == bank.servos[i].end
    ensures task == TaskPickAndPlace1 && stops(|PickAndPlace| - 1).None? ==> forall i :: 0 <= i < Count ==>
              bank.servos[i].pulse == PoseTarget(old(bank.servos[i]), Home[i])
  {
    sent := [];
    if task != TaskPickAndPlace1 {
      return;
    }
    PoseTableShape();
    sent := PlaySequence(bank, PickAndPlace, TaskSpeed, stops);
  }
}
