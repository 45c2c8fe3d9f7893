/**
 * The host's automatic pick-and-place controller (`AutomationController` in
 * `automation.py`): the task point lists, the parameters, the task state machine and
 * the worker that runs the nine-step cycle for every pickup/place pair.
 *
 * The worker runs on its own thread in the source. Here it is a sequential method;
 * what the other threads and the port do to it comes in as oracles:
 *  - `stopAt`: `stop_task` is called from the user interface just before the worker's
 *    first stop-flag check after it has begun `stopAt` actions (None: never);
 *  - `sendFails(k)`: the port write of the `k`-th action raises.
 * An action is one step of a cycle or the final return home, numbered from 0.
 */
module Automation {
  import opened Outcomes
  import opened Protocol
  import opened Config
  import Communication
  import Kinematics

  /** One `_update_status` call: the status callback's `(task_state, current_step)` and the progress callback's `(current, total)`. */
  datatype Report = Report(state: TaskState, step: AutoTaskStep, current: nat, total: nat)

  /** The `current` of the progress callback: the 1-based task number while a task runs or is paused, else 0. */
  function ProgressOf(state: TaskState, index: nat): nat
  {
    if state == Running || state == Paused then index + 1 else 0
  }

  /** A running task at index `index` of `total` reports a progress between 1 and `total`; an idle one reports 0. */
  lemma ProgressBounds(state: TaskState, index: nat, total: nat)
    requires index < total
    ensures state == Running || state == Paused ==> 1 <= ProgressOf(state, index) <= total
    ensures state == Idle || state == Completed || state == Error ==> ProgressOf(state, index) == 0
  {
  }

  /** The keys `update_parameters` looks for; None is a missing key. */
  datatype ParamUpdate = ParamUpdate(
    safeHeight: Option<real>, heightOffset: Option<real>, gripDelay: Option<real>,
    moveDelay: Option<real>, autoSpeed: Option<int>, returnHome: Option<bool>)

  /** `dict.get(key, default)`. */
  function Get<T>(o: Option<T>, default: T): T
  {
    if o.Some? then o.value else default
  }

  /** What `start_task` answers. */
  datatype StartResult = Started(tasks: nat) | NeedPoints | UnequalCounts | NotConnected

  /** `DEFAULT_ANGLES` as the list of angles the controller keeps. */
  function HomeAngles(): (a: seq<real>)
    ensures |a| == 6 && forall i :: 0 <= i < 6 ==> a[i] == DefaultAngles[i] as real
  {
    seq(6, i requires 0 <= i < 6 => DefaultAngles[i] as real)
  }

  /** `[p[0] / 1000, p[1] / 1000, (p[2] + offset) / 1000]`: a point in millimetres, raised by `offset`, in metres. */
  function Above(p: seq<real>, offset: real): (t: seq<real>)
    requires |p| >= 3
    ensures |t| == 3
  {
    [p[0] / 1000.0, p[1] / 1000.0, (p[2] + offset) / 1000.0]
  }

  /** `[p[0] / 1000, p[1] / 1000, p[2] / 1000]`. */
  function AtPoint(p: seq<real>): (t: seq<real>)
    requires |p| >= 3
    ensures |t| == 3
  {
    [p[0] / 1000.0, p[1] / 1000.0, p[2] / 1000.0]
  }

  /** The number of steps of one pick-and-place cycle. */
  const CycleSteps: nat := 9

  /**
   * The target of move step `k` of a cycle, from the current angles `current`: straight up
   * to the safe height (step 0), above a point by `offset` (steps 1, 4, 5, 8) or at it
   * (steps 2, 6), pickup point first. None when that point has fewer than three coordinates.
   */
  function StepTarget(chain: Kinematics.Chain, k: nat, pickup: seq<real>, place: seq<real>, current: seq<real>,
                      safeHeight: real, offset: real): (t: Option<seq<real>>)
    requires |current| >= 5 && k < CycleSteps && k != 3 && k != 7
    ensures t.Some? ==> |t.value| == 3
  {
    if k == 0 then
      var p := Kinematics.ForwardKinematics(chain, current);
      Some([p[0], p[1], safeHeight / 1000.0])
    else
      var point := if k <= 4 then pickup else place;
      if |point| < 3 then None
      else if k == 2 || k == 6 then Some(AtPoint(point))
      else Some(Above(point, offset))
  }

  /**
   * Step `k` of a cycle can be commanded from the angles `current`: a gripper step always;
   * a move step when its point has three coordinates and the solver answers for its target.
   * The step then succeeds exactly when, in addition, the port is open and the write does not raise.
   */
  predicate Reachable(chain: Kinematics.Chain, k: nat, pickup: seq<real>, place: seq<real>, current: seq<real>,
                      safeHeight: real, offset: real)
    requires |current| >= 5 && k < CycleSteps
  {
    k == 3 || k == 7 ||
    var t := StepTarget(chain, k, pickup, place, current, safeHeight, offset);
    t.Some? && Kinematics.IkAnswer(chain, t.value, current).Solved?
  }

  /**
   * The descent and the lift at a point are vertical: the approach and the lift-off
   * targets coincide, and the target at the point lies `offset / 1000` below them.
   */
  lemma StepTargetsVertical(chain: Kinematics.Chain, pickup: seq<real>, place: seq<real>, current: seq<real>,
                            safeHeight: real, offset: real)
    requires |current| >= 5 && |pickup| >= 3 && |place| >= 3
    ensures StepTarget(chain, 1, pickup, place, current, safeHeight, offset)
            == StepTarget(chain, 4, pickup, place, current, safeHeight, offset)
    ensures StepTarget(chain, 5, pickup, place, current, safeHeight, offset)
            == StepTarget(chain, 8, pickup, place, current, safeHeight, offset)
    ensures forall k :: k in {1, 5} ==>
              var above := StepTarget(chain, k, pickup, place, current, safeHeight, offset).value;
              var at := StepTarget(chain, k + 1, pickup, place, current, safeHeight, offset).value;
              above[0] == at[0] && above[1] == at[1] && above[2] - at[2] == offset / 1000.0
  {
  }

  /** The cycle's steps are the first nine members of `AutoTaskStep`, in declaration order. */
  lemma CycleOrder()
    ensures CycleSteps < |AutoTaskSteps|
    ensures AutoTaskSteps[..CycleSteps] ==
            [MoveToSafeHeight, MoveToPickupAbove, MoveToPickup, GripClose, MoveUpFromPickup,
             MoveToPlaceAbove, MoveToPlace, GripOpen, MoveUpFromPlace]
    ensures AutoTaskSteps[CycleSteps] == ReturnHome && AutoTaskSteps[CycleSteps + 1] == TaskComplete
  {
  }

  class AutomationController {
    const chain: Kinematics.Chain
    const comm: Communication.SerialCommunicator

    var pickupPoints: seq<seq<real>>
    var placePoints: seq<seq<real>>

    var taskState: TaskState
    var currentTaskIndex: nat
    var currentStep: AutoTaskStep
    var stopFlag: bool
    var pauseFlag: bool

    var safeHeight: real
    var pickupHeightOffset: real
    var placeHeightOffset: real
    var gripDelay: real
    var moveDelay: real
    var autoSpeed: int
    var returnHome: bool

    var currentAngles: seq<real>

    /** Every `_update_status` call, in order. */
    var reports: seq<Report>

    /** Six current angles, and one height offset for pickup and place alike. */
    ghost predicate Valid()
      reads this
    {
      |currentAngles| == 6 && pickupHeightOffset == placeHeightOffset
    }

    constructor (chain: Kinematics.Chain, comm: Communication.SerialCommunicator)
      ensures Valid() && this.chain == chain && this.comm == comm
      ensures pickupPoints == [] && placePoints == [] && reports == []
      ensures taskState == Idle && currentTaskIndex == 0 && currentStep == MoveToSafeHeight
      ensures !stopFlag && !pauseFlag
      ensures safeHeight == AutoTaskDefaults.safeHeight && gripDelay == AutoTaskDefaults.gripDelay
      ensures pickupHeightOffset == placeHeightOffset == AutoTaskDefaults.heightOffset
      ensures moveDelay == AutoTaskDefaults.moveDelay && autoSpeed == AutoTaskDefaults.autoSpeed
      ensures returnHome == AutoTaskDefaults.returnHome
      ensures currentAngles == HomeAngles()
    {
      this.chain := chain;
      this.comm := comm;
      pickupPoints, placePoints := [], [];
      taskState, currentTaskIndex, currentStep := Idle, 0, MoveToSafeHeight;
      stopFlag, pauseFlag := false, false;
      safeHeight := AutoTaskDefaults.safeHeight;
      pickupHeightOffset := AutoTaskDefaults.heightOffset;
      placeHeightOffset := AutoTaskDefaults.heightOffset;
      gripDelay := AutoTaskDefaults.gripDelay;
      moveDelay := AutoTaskDefaults.moveDelay;
      autoSpeed := AutoTaskDefaults.autoSpeed;
      returnHome := AutoTaskDefaults.returnHome;
      currentAngles := HomeAngles();
      reports := [];
    }

    // ------------------------------------------------------------ task points

    method AddPickupPoint(point: seq<real>)
      modifies this`pickupPoints
      ensures pickupPoints == old(pickupPoints) + [point]
    {
      pickupPoints := pickupPoints + [point];
    }

    method AddPlacePoint(point: seq<real>)
      modifies this`placePoints
      ensures placePoints == old(placePoints) + [point]
    {
      placePoints := placePoints + [point];
    }

    /** `remove_pickup_point`: deletes the point at `index`; an index out of range changes nothing. */
    method RemovePickupPoint(index: int)
      modifies this`pickupPoints
      ensures 0 <= index < |old(pickupPoints)| ==>
                pickupPoints == old(pickupPoints)[..index] + old(pickupPoints)[index + 1..]
      ensures !(0 <= index < |old(pickupPoints)|) ==> pickupPoints == old(pickupPoints)
    {
      if 0 <= index < |pickupPoints| {
        pickupPoints := pickupPoints[..index] + pickupPoints[index + 1..];
      }
    }

    method RemovePlacePoint(index: int)
      modifies this`placePoints
      ensures 0 <= index < |old(placePoints)| ==>
                placePoints == old(placePoints)[..index] + old(placePoints)[index + 1..]
      ensures !(0 <= index < |old(placePoints)|) ==> placePoints == old(placePoints)
    {
      if 0 <= index < |placePoints| {
        placePoints := placePoints[..index] + placePoints[index + 1..];
      }
    }

    /** `update_pickup_point`: replaces the point at `index`; an index out of range changes nothing. */
    method UpdatePickupPoint(index: int, point: seq<real>)
      modifies this`pickupPoints
      ensures 0 <= index < |old(pickupPoints)| ==> pickupPoints == old(pickupPoints)[index := point]
      ensures !(0 <= index < |old(pickupPoints)|) ==> pickupPoints == old(pickupPoints)
    {
      if 0 <= index < |pickupPoints| {
        pickupPoints := pickupPoints[index := point];
      }
    }

    method UpdatePlacePoint(index: int, point: seq<real>)
      modifies this`placePoints
      ensures 0 <= index < |old(placePoints)| ==> placePoints == old(placePoints)[index := point]
      ensures !(0 <= index < |old(placePoints)|) ==> placePoints == old(placePoints)
    {
      if 0 <= index < |placePoints| {
        placePoints := placePoints[index := point];
      }
    }

    method ClearAllPoints()
      modifies this`pickupPoints, this`placePoints
      ensures pickupPoints == [] && placePoints == []
    {
      pickupPoints, placePoints := [], [];
    }

    // ------------------------------------------------------------ parameters

    /** `update_parameters`: each present key replaces its parameter; `height_offset` sets both offsets. */
    method UpdateParameters(u: ParamUpdate)
      requires Valid()
      modifies this`safeHeight, this`pickupHeightOffset, this`placeHeightOffset, this`gripDelay,
               this`moveDelay, this`autoSpeed, this`returnHome
      ensures Valid()
      ensures safeHeight == Get(u.safeHeight, old(safeHeight))
      ensures pickupHeightOffset == Get(u.heightOffset, old(pickupHeightOffset))
      ensures placeHeightOffset == Get(u.heightOffset, old(placeHeightOffset))
      ensures gripDelay == Get(u.gripDelay, old(gripDelay)) && moveDelay == Get(u.moveDelay, old(moveDelay))
      ensures autoSpeed == Get(u.autoSpeed, old(autoSpeed)) && returnHome == Get(u.returnHome, old(returnHome))
    {
      safeHeight := Get(u.safeHeight, safeHeight);
      pickupHeightOffset := Get(u.heightOffset, pickupHeightOffset);
      placeHeightOffset := Get(u.heightOffset, placeHeightOffset);
      gripDelay := Get(u.gripDelay, gripDelay);
      moveDelay := Get(u.moveDelay, moveDelay);
      autoSpeed := Get(u.autoSpeed, autoSpeed);
      returnHome := Get(u.returnHome, returnHome);
    }

    // ------------------------------------------------------------ state machine

    /** `_update_status`: reports the state, the step and the progress. */
    method UpdateStatus()
      modifies this`reports
      ensures reports == old(reports) + [Report(taskState, currentStep, ProgressOf(taskState, currentTaskIndex), |pickupPoints|)]
    {
      reports := reports + [Report(taskState, currentStep, ProgressOf(taskState, currentTaskIndex), |pickupPoints|)];
    }

    /** `start_task`: refuses, changing nothing, without points, with unequal lists or without a connection, in that order. */
    method StartTask() returns (r: StartResult)
      modifies this`taskState, this`currentTaskIndex, this`currentStep, this`stopFlag, this`pauseFlag, this`reports
      ensures pickupPoints == [] || placePoints == [] ==> r == NeedPoints
      ensures pickupPoints != [] && placePoints != [] && |pickupPoints| != |placePoints| ==> r == UnequalCounts
      ensures pickupPoints != [] && |pickupPoints| == |placePoints| && !comm.isConnected ==> r == NotConnected
      ensures pickupPoints != [] && |pickupPoints| == |placePoints| && comm.isConnected ==> r == Started(|pickupPoints|)
      ensures !r.Started? ==> unchanged(this)
      ensures r.Started? ==>
                taskState == Running && currentTaskIndex == 0 && currentStep == MoveToSafeHeight
                && !stopFlag && !pauseFlag
                && reports == old(reports) + [Report(Running, MoveToSafeHeight, 1, |pickupPoints|)]
    {
      if pickupPoints == [] || placePoints == [] {
        return NeedPoints;
      }
      if |pickupPoints| != |placePoints| {
        return UnequalCounts;
      }
      if !comm.isConnected {
        return NotConnected;
      }
      taskState, currentTaskIndex, currentStep := Running, 0, MoveToSafeHeight;
      stopFlag, pauseFlag := false, false;
      UpdateStatus();
      return Started(|pickupPoints|);
    }

    /** `pause_task`: RUNNING and PAUSED swap, with the pause flag; other states stay. Answers whether now paused. */
    method PauseTask() returns (paused: bool)
      modifies this`taskState, this`pauseFlag, this`reports
      ensures old(taskState) == Running ==> taskState == Paused && pauseFlag
      ensures old(taskState) == Paused ==> taskState == Running && !pauseFlag
      ensures old(taskState) != Running && old(taskState) != Paused ==>
                taskState == old(taskState) && pauseFlag == old(pauseFlag)
      ensures paused <==> taskState == Paused
      ensures reports == old(reports) + [Report(taskState, currentStep, ProgressOf(taskState, currentTaskIndex), |pickupPoints|)]
    {
      if taskState == Running {
        pauseFlag, taskState := true, Paused;
      } else if taskState == Paused {
        pauseFlag, taskState := false, Running;
      }
      UpdateStatus();
      paused := taskState == Paused;
    }

    /** `stop_task`: raises the stop flag and goes IDLE, whatever the state. */
    method StopTask()
      modifies this`stopFlag, this`taskState, this`reports
      ensures stopFlag && taskState == Idle
      ensures reports == old(reports) + [Report(Idle, currentStep, 0, |pickupPoints|)]
    {
      stopFlag, taskState := true, Idle;
      UpdateStatus();
    }

    /** A stop-flag check of the worker after it has begun `n` actions: `stop_task` runs first when the oracle places it here. */
    method PollStop(stopAt: Option<nat>, n: nat)
      modifies this`stopFlag, this`taskState, this`reports
      ensures stopFlag <==> old(stopFlag) || stopAt == Some(n)
      ensures !old(stopFlag) && stopAt == Some(n) ==>
                taskState == Idle && reports == old(reports) + [Report(Idle, currentStep, 0, |pickupPoints|)]
      ensures old(stopFlag) || stopAt != Some(n) ==> unchanged(this)
    {
      if !stopFlag && stopAt == Some(n) {
        StopTask();
      }
    }

    // ------------------------------------------------------------ actions

    /**
     * `_move_to_position_auto`: inverse kinematics from the current angles, then the
     * five arm fields at `auto_speed`. `ik` is what `inverse_kinematics` answered; any
     * answer other than a solution makes the command builder raise, which is a failure.
     */
    method MoveToPositionAuto(target: seq<real>, fails: bool) returns (ok: bool, ik: Kinematics.IkResult)
      requires Valid() && |target| == 3
      modifies this`currentAngles, comm
      ensures Valid()
      ensures comm.isConnected == old(comm.isConnected) && comm.portOpen == old(comm.portOpen)
      ensures ik == Kinematics.IkAnswer(chain, target, old(currentAngles))
      ensures ok <==> ik.Solved? && comm.isConnected && comm.portOpen && !fails
      ensures ik.Solved? ==> |ik.angles| == 6 && Kinematics.WithinLimits(ik.angles)
      ensures ok ==> (forall i :: 0 <= i < 5 ==> currentAngles[i] == ik.angles[i])
                     && currentAngles[5] == old(currentAngles)[5]
      ensures ok ==> comm.written ==
                       old(comm.written) + [FormatCommand(Communication.AngleFields(ik.angles, 5, autoSpeed)) + "\r\n"]
      ensures !ok ==> currentAngles == old(currentAngles) && comm.written == old(comm.written)
    {
      ghost var trace, best;
      ik, trace, best := Kinematics.InverseKinematics(chain, target, currentAngles);
      if !ik.Solved? {
        return false, ik;
      }
      ok := SendArmAngles(ik.angles, fails);
    }

    /** The rest of `_move_to_position_auto` once the angles are known: the five arm fields, then the copy of angles 0..4. */
    method SendArmAngles(angles: seq<real>, fails: bool) returns (ok: bool)
      requires Valid() && |angles| == 6
      modifies this`currentAngles, comm
      ensures Valid()
      ensures comm.isConnected == old(comm.isConnected) && comm.portOpen == old(comm.portOpen)
      ensures ok <==> comm.isConnected && comm.portOpen && !fails
      ensures ok ==> (forall i :: 0 <= i < 5 ==> currentAngles[i] == angles[i])
                     && currentAngles[5] == old(currentAngles)[5]
      ensures ok ==> comm.written ==
                       old(comm.written) + [FormatCommand(Communication.AngleFields(angles, 5, autoSpeed)) + "\r\n"]
      ensures !ok ==> currentAngles == old(currentAngles) && comm.written == old(comm.written)
    {
      var built := Communication.CreatePositionCommand(angles, autoSpeed, true);
      var status;
      ok, status := comm.SendCommand(built.value, fails);
      if ok {
        var updated := currentAngles;
        for i := 0 to 5
          invariant |updated| == 6 && updated[5] == currentAngles[5]
          invariant forall k :: 0 <= k < i ==> updated[k] == angles[k]
        {
          updated := updated[i := angles[i]];
        }
        currentAngles := updated;
      }
    }

    /** `_control_gripper_auto`: the gripper field; on success the gripper angle is recorded. */
    method ControlGripperAuto(angle: int, fails: bool) returns (ok: bool)
      requires Valid()
      modifies this`currentAngles, comm
      ensures Valid()
      ensures comm.isConnected == old(comm.isConnected) && comm.portOpen == old(comm.portOpen)
      ensures ok <==> comm.isConnected && comm.portOpen && !fails
      ensures ok ==> currentAngles == old(currentAngles)[5 := angle as real]
      ensures ok ==> comm.written == old(comm.written) + [Communication.CreateGripperCommand(angle as real, autoSpeed) + "\r\n"]
      ensures !ok ==> currentAngles == old(currentAngles) && comm.written == old(comm.written)
    {
      var command := Communication.CreateGripperCommand(angle as real, autoSpeed);
      var status;
      ok, status := comm.SendCommand(command, fails);
      if ok {
        currentAngles := currentAngles[5 := angle as real];
      }
    }

    /** `_return_to_home_position`: all six default angles; on success they become the current angles. */
    method ReturnToHomePosition(fails: bool) returns (ok: bool)
      requires Valid()
      modifies this`currentAngles, comm
      ensures Valid()
      ensures comm.isConnected == old(comm.isConnected) && comm.portOpen == old(comm.portOpen)
      ensures ok <==> comm.isConnected && comm.portOpen && !fails
      ensures ok ==> currentAngles == HomeAngles()
      ensures ok ==> comm.written == old(comm.written) + [FormatCommand(Communication.AngleFields(HomeAngles(), 6, autoSpeed)) + "\r\n"]
      ensures !ok ==> currentAngles == old(currentAngles) && comm.written == old(comm.written)
    {
      var command := Communication.CreateServoCommand(HomeAngles(), autoSpeed);
      var status;
      ok, status := comm.SendCommand(command, fails);
      if ok {
        currentAngles := HomeAngles();
      }
    }

    /**
     * The action of step `k` of a cycle. A point with fewer than three coordinates makes
     * the step raise, which counts as a failure. The place steps raise the point by
     * `pickup_height_offset`, as the source does; `Valid` keeps it equal to the place offset.
     */
    method RunStep(k: nat, pickup: seq<real>, place: seq<real>, fails: bool) returns (ok: bool)
      requires Valid() && k < CycleSteps
      modifies this`currentAngles, comm
      ensures Valid()
      ensures comm.isConnected == old(comm.isConnected) && comm.portOpen == old(comm.portOpen)
      ensures ok <==> comm.isConnected && comm.portOpen && !fails
                      && Reachable(chain, k, pickup, place, old(currentAngles), safeHeight, pickupHeightOffset)
      ensures ok ==> |comm.written| == |old(comm.written)| + 1 && comm.written[..|old(comm.written)|] == old(comm.written)
      ensures !ok ==> currentAngles == old(currentAngles) && comm.written == old(comm.written)
      ensures ok && k == 3 ==>
                currentAngles == old(currentAngles)[5 := GripperClose as real]
                && comm.written == old(comm.written) + [Communication.CreateGripperCommand(GripperClose as real, autoSpeed) + "\r\n"]
      ensures ok && k == 7 ==>
                currentAngles == old(currentAngles)[5 := GripperOpen as real]
                && comm.written == old(comm.written) + [Communication.CreateGripperCommand(GripperOpen as real, autoSpeed) + "\r\n"]
      ensures ok && k != 3 && k != 7 ==>
                var t := StepTarget(chain, k, pickup, place, old(currentAngles), safeHeight, pickupHeightOffset);
                t.Some? &&
                var ik := Kinematics.IkAnswer(chain, t.value, old(currentAngles));
                ik.Solved? && |ik.angles| == 6
                && (forall i :: 0 <= i < 5 ==> currentAngles[i] == ik.angles[i])
                && comm.written == old(comm.written) + [FormatCommand(Communication.AngleFields(ik.angles, 5, autoSpeed)) + "\r\n"]
      ensures ok && k != 3 && k != 7 ==> Kinematics.WithinLimits(currentAngles) && currentAngles[5] == old(currentAngles)[5]
    {
      hide Kinematics.IkAnswer;
      var ik;
      if k == 0 {
        var position := Kinematics.ForwardKinematics(chain, currentAngles);
        ok, ik := MoveToPositionAuto([position[0], position[1], safeHeight / 1000.0], fails);
      } else if k == 3 || k == 7 {
        ok := ControlGripperAuto(if k == 3 then GripperClose else GripperOpen, fails);
        return;
      } else {
        var point := if k <= 4 then pickup else place;
        if |point| < 3 {
          return false;
        }
        var target := if k == 2 || k == 6 then AtPoint(point) else Above(point, pickupHeightOffset);
        ok, ik := MoveToPositionAuto(target, fails);
      }
      if ok {
        assert comm.written[..|old(comm.written)|] == old(comm.written);
      }
    }

    /**
     * `_execute_single_task`: the nine steps in order, each preceded by a stop check,
     * stopping at the first stop or failure. `n` counts the actions begun before this
     * cycle; `steps` is the number of steps begun here.
     */
    method ExecuteSingleTask(pickup: seq<real>, place: seq<real>, stopAt: Option<nat>, sendFails: nat -> bool, n: nat)
      returns (success: bool, steps: nat)
      requires Valid()
      modifies this`currentAngles, this`currentStep, this`stopFlag, this`taskState, this`reports, comm
      ensures Valid()
      ensures comm.isConnected == old(comm.isConnected) && comm.portOpen == old(comm.portOpen)
      ensures steps <= CycleSteps
      ensures !success ==> |comm.written| == |old(comm.written)| + (if stopFlag then steps else steps - 1)
      ensures !stopFlag && !success ==>
                steps >= 1
                && !(comm.isConnected && comm.portOpen && !sendFails(n + steps - 1)
                     && Reachable(chain, steps - 1, pickup, place, currentAngles, safeHeight, pickupHeightOffset))
      ensures steps > 0 ==> currentStep == AutoTaskSteps[steps - 1]
      ensures old(stopFlag) ==> steps == 0 && !success && stopFlag
      ensures !old(stopFlag) ==> !(stopAt.Some? && n <= stopAt.value < n + steps)
      ensures stopFlag && !old(stopFlag) ==> stopAt == Some(n + steps) && !success
      ensures !stopFlag && !success ==> steps >= 1
      ensures success ==>
                steps == CycleSteps && !stopFlag && |comm.written| == |old(comm.written)| + CycleSteps
                && Kinematics.WithinLimits(currentAngles) && currentAngles[5] == GripperOpen as real
    {
      // The loop never needs the solver's definition, only the steps' contracts.
      hide Kinematics.IkAnswer;
      var j := 0;
      while j < CycleSteps
        invariant j <= CycleSteps && Valid()
        invariant j == 0 ==> stopFlag == old(stopFlag)
        invariant j > 0 ==> !stopFlag
        invariant comm.isConnected == old(comm.isConnected) && comm.portOpen == old(comm.portOpen)
        invariant |comm.written| == |old(comm.written)| + j
        invariant j > 0 ==> currentStep == AutoTaskSteps[j - 1] && !old(stopFlag)
        invariant !(stopAt.Some? && n <= stopAt.value < n + j)
        invariant j >= 1 ==> Kinematics.WithinLimits(currentAngles)
        invariant j >= 8 ==> currentAngles[5] == GripperOpen as real
      {
        var stopped, ok := CycleStep(j, pickup, place, stopAt, sendFails(n + j), n + j);
        if stopped {
          return false, j;
        }
        if !ok {
          return false, j + 1;
        }
        j := j + 1;
      }
      return true, CycleSteps;
    }

    /** One pass of the step loop of `_execute_single_task`: the stop check, the status report, then action `k` as action number `n`. */
    method CycleStep(k: nat, pickup: seq<real>, place: seq<real>, stopAt: Option<nat>, fails: bool, n: nat)
      returns (stopped: bool, ok: bool)
      requires Valid() && k < CycleSteps
      modifies this`currentAngles, this`currentStep, this`stopFlag, this`taskState, this`reports, comm
      ensures Valid()
      ensures comm.isConnected == old(comm.isConnected) && comm.portOpen == old(comm.portOpen)
      ensures stopped <==> old(stopFlag) || stopAt == Some(n)
      ensures stopped ==> stopFlag && !ok && comm.written == old(comm.written) && currentStep == old(currentStep)
      ensures old(stopFlag) ==> taskState == old(taskState) && reports == old(reports)
      ensures stopped && !old(stopFlag) ==> taskState == Idle && reports == old(reports) + [Report(Idle, old(currentStep), 0, |pickupPoints|)]
      ensures !stopped ==> !stopFlag && currentStep == AutoTaskSteps[k] && taskState == old(taskState)
      ensures !stopped ==>
                reports == old(reports) + [Report(taskState, AutoTaskSteps[k], ProgressOf(taskState, currentTaskIndex), |pickupPoints|)]
      ensures !stopped ==>
                (ok <==> comm.isConnected && comm.portOpen && !fails
                         && Reachable(chain, k, pickup, place, old(currentAngles), safeHeight, pickupHeightOffset))
      ensures ok ==> |comm.written| == |old(comm.written)| + 1
      ensures !ok ==> comm.written == old(comm.written) && currentAngles == old(currentAngles)
      ensures ok && k == 7 ==> currentAngles[5] == GripperOpen as real
      ensures ok && k != 3 && k != 7 ==> Kinematics.WithinLimits(currentAngles) && currentAngles[5] == old(currentAngles)[5]
      ensures ok && (k == 3 || k == 7) ==> forall i :: 0 <= i < 5 ==> currentAngles[i] == old(currentAngles)[i]
    {
      hide Kinematics.IkAnswer;
      PollStop(stopAt, n);
      if stopFlag {
        return true, false;
      }
      stopped := false;
      currentStep := AutoTaskSteps[k];
      UpdateStatus();
      ok := RunStep(k, pickup, place, fails);
    }

    /**
     * The task loop of `_execute_auto_task`: one cycle per pickup point, each preceded
     * by a stop check, ending on a stop or a failed cycle. `n` is the number of cycle
     * steps begun; `crashed` says a place point was missing for a pickup point, which
     * raises into the except clause: ERROR, and the final status report. `done` counts
     * the cycles that succeeded; `failed` says the cycle after them returned False
     * without a stop.
     */
    method RunCycles(stopAt: Option<nat>, sendFails: nat -> bool)
      returns (n: nat, crashed: bool, ghost done: nat, ghost failed: bool)
      requires Valid()
      modifies this`currentAngles, this`currentStep, this`currentTaskIndex, this`stopFlag, this`taskState,
               this`reports, comm
      ensures Valid()
      ensures comm.isConnected == old(comm.isConnected) && comm.portOpen == old(comm.portOpen)
      ensures n <= CycleSteps * |pickupPoints|
      ensures !stopFlag ==> !(stopAt.Some? && stopAt.value < n)
      ensures stopFlag && !old(stopFlag) ==> stopAt == Some(n)
      ensures old(stopFlag) ==> n == 0 && stopFlag && !crashed && done == 0 && !failed
      ensures done <= |pickupPoints| && CycleSteps * done <= n <= CycleSteps * done + CycleSteps
      ensures |comm.written| == |old(comm.written)| + n - (if failed then 1 else 0)
      ensures !stopFlag && !crashed && !failed ==> done == |pickupPoints| && n == CycleSteps * done
      ensures crashed ==> !failed && done == |placePoints| && n == CycleSteps * done
      ensures failed ==>
                !crashed && done < |pickupPoints| && done < |placePoints| && CycleSteps * done < n
                && !(comm.isConnected && comm.portOpen && !sendFails(n - 1)
                     && Reachable(chain, n - 1 - CycleSteps * done, pickupPoints[done], placePoints[done],
                                  currentAngles, safeHeight, pickupHeightOffset))
      ensures crashed ==>
                !stopFlag && |placePoints| < |pickupPoints| && taskState == Error
                && stopAt != Some(n)
                && |reports| > 0
                && reports[|reports| - 1] == Report(Error, currentStep, 0, |pickupPoints|)
    {
      hide Kinematics.IkAnswer, Reachable;
      n, crashed, done, failed := 0, false, 0, false;
      var total := |pickupPoints|;
      var taskIndex := 0;
      while taskIndex < total
        invariant taskIndex <= total && n == CycleSteps * taskIndex && Valid()
        invariant |comm.written| == |old(comm.written)| + n
        invariant taskIndex <= |placePoints|
        invariant comm.isConnected == old(comm.isConnected) && comm.portOpen == old(comm.portOpen)
        invariant !stopFlag ==> !(stopAt.Some? && stopAt.value < n)
        invariant stopFlag <==> old(stopFlag)
        invariant old(stopFlag) ==> taskIndex == 0
        invariant !crashed && !failed && done == 0
        decreases total - taskIndex
      {
        var m, go;
        ghost var succeeded;
        m, go, crashed, succeeded, failed := TaskPass(taskIndex, stopAt, sendFails, n);
        if !go {
          return m, crashed, if succeeded then taskIndex + 1 else taskIndex, failed;
        }
        n, taskIndex := m, taskIndex + 1;
      }
      done := total;
    }

    /**
     * One pass of the task loop, for pickup point `i` as actions `n` onwards: the stop
     * check, the lookup of the place point, the cycle and the stop check after it. `m`
     * counts the actions begun so far; `go` says the loop goes on; `succeeded` says the
     * cycle returned True and `failed` that it returned False without a stop.
     */
    method TaskPass(i: nat, stopAt: Option<nat>, sendFails: nat -> bool, n: nat)
      returns (m: nat, go: bool, crashed: bool, ghost succeeded: bool, ghost failed: bool)
      requires Valid() && i < |pickupPoints|
      modifies this`currentAngles, this`currentStep, this`currentTaskIndex, this`stopFlag, this`taskState,
               this`reports, comm
      ensures Valid()
      ensures comm.isConnected == old(comm.isConnected) && comm.portOpen == old(comm.portOpen)
      ensures n <= m <= n + CycleSteps
      ensures |comm.written| == |old(comm.written)| + (m - n) - (if failed then 1 else 0)
      ensures go <==> succeeded && !stopFlag
      ensures succeeded ==> m == n + CycleSteps && !failed && !crashed && i < |placePoints|
      ensures !go ==> stopFlag || crashed || failed
      ensures !stopFlag ==> !(stopAt.Some? && n <= stopAt.value < m)
      ensures stopFlag && !old(stopFlag) ==> stopAt == Some(m)
      ensures old(stopFlag) ==> m == n && stopFlag && !crashed && !succeeded && !failed
      ensures crashed ==>
                m == n && !failed && !succeeded && !stopFlag && |placePoints| <= i && taskState == Error
                && stopAt != Some(n)
                && |reports| > 0
                && reports[|reports| - 1] == Report(Error, currentStep, 0, |pickupPoints|)
      ensures failed ==>
                !crashed && !succeeded && i < |placePoints| && n < m
                && !(comm.isConnected && comm.portOpen && !sendFails(m - 1)
                     && Reachable(chain, m - 1 - n, pickupPoints[i], placePoints[i],
                                  currentAngles, safeHeight, pickupHeightOffset))
    {
      hide Kinematics.IkAnswer, Reachable;
      m, go, crashed, succeeded, failed := n, false, false, false, false;
      PollStop(stopAt, n);
      if stopFlag {
        return;
      }
      currentTaskIndex := i;
      if i >= |placePoints| {
        // `self.place_points[task_index]` raises
        taskState := Error;
        UpdateStatus();
        return n, false, true, false, false;
      }
      var success, steps := ExecuteSingleTask(pickupPoints[i], placePoints[i], stopAt, sendFails, n);
      failed := !success && !stopFlag;
      succeeded := success;
      m := n + steps;
      PollStop(stopAt, m);
      go := success && !stopFlag;
    }

    /**
     * `_execute_auto_task`: the task loop, then the return home when enabled and not
     * stopped, and the terminal state: IDLE after a stop, ERROR when the return home
     * fails or a point is missing, COMPLETED otherwise, whether or not every cycle
     * succeeded. `actions` is the number of cycle steps begun; `homed` is the outcome of
     * the return home when one was made.
     */
    method ExecuteAutoTask(stopAt: Option<nat>, sendFails: nat -> bool)
      returns (actions: nat, crashed: bool, homed: Option<bool>, ghost done: nat, ghost failed: bool)
      requires Valid()
      modifies this`currentAngles, this`currentStep, this`currentTaskIndex, this`stopFlag, this`taskState,
               this`reports, comm
      ensures Valid()
      ensures actions <= CycleSteps * |pickupPoints|
      ensures stopFlag <==> old(stopFlag) || (stopAt.Some? && stopAt.value <= actions)
      ensures stopFlag && !old(stopFlag) ==> stopAt == Some(actions)
      ensures old(stopFlag) ==> actions == 0
      ensures done <= |pickupPoints| && CycleSteps * done <= actions
      ensures !crashed && !stopFlag && !failed ==> done == |pickupPoints| && actions == CycleSteps * done
      ensures failed ==> !crashed && done < |pickupPoints|
      ensures failed && !stopFlag && !returnHome ==> taskState == Completed
      ensures crashed ==> |placePoints| < |pickupPoints| && taskState == Error && homed.None?
      ensures !crashed && stopFlag ==> taskState == Idle && homed.None?
      ensures !crashed && !stopFlag && returnHome ==> homed.Some?
      ensures !crashed && !stopFlag && !returnHome ==> homed.None? && taskState == Completed && currentStep == TaskComplete
      ensures homed == Some(true) ==>
                taskState == Completed && currentStep == TaskComplete && currentAngles == HomeAngles()
                && |comm.written| >= 1
                && comm.written[|comm.written| - 1] ==
                     FormatCommand(Communication.AngleFields(HomeAngles(), 6, autoSpeed)) + "\r\n"
      ensures homed == Some(false) ==> taskState == Error && currentStep == ReturnHome
      ensures homed == Some(false) <==> homed.Some? && !(comm.isConnected && comm.portOpen && !sendFails(actions))
      ensures |reports| > 0 &&
              reports[|reports| - 1] == Report(taskState, currentStep, ProgressOf(taskState, currentTaskIndex), |pickupPoints|)
    {
      hide Kinematics.IkAnswer;
      var n;
      n, crashed, done, failed := RunCycles(stopAt, sendFails);
      actions, homed := n, None;
      if crashed {
        return;
      }
      PollStop(stopAt, n);
      homed := FinishTask(sendFails(n));
    }

    /** The end of `_execute_auto_task` once the loop is over: the return home, the terminal state, the final report. */
    method FinishTask(fails: bool) returns (homed: Option<bool>)
      requires Valid()
      modifies this`currentAngles, this`currentStep, this`taskState, this`reports, comm
      ensures Valid()
      ensures comm.isConnected == old(comm.isConnected) && comm.portOpen == old(comm.portOpen)
      ensures stopFlag ==> taskState == Idle && homed.None? && currentAngles == old(currentAngles)
      ensures !stopFlag && returnHome ==> homed.Some?
      ensures !stopFlag && !returnHome ==> homed.None? && taskState == Completed && currentStep == TaskComplete
      ensures homed == Some(true) ==>
                taskState == Completed && currentStep == TaskComplete && currentAngles == HomeAngles()
                && comm.written == old(comm.written) + [FormatCommand(Communication.AngleFields(HomeAngles(), 6, autoSpeed)) + "\r\n"]
      ensures homed == Some(false) ==> taskState == Error && currentStep == ReturnHome
      ensures homed == Some(false) <==> homed.Some? && !(comm.isConnected && comm.portOpen && !fails)
      ensures |reports| > 0 &&
              reports[|reports| - 1] == Report(taskState, currentStep, ProgressOf(taskState, currentTaskIndex), |pickupPoints|)
    {
      homed := None;
      if !stopFlag && returnHome {
        currentStep := ReturnHome;
        UpdateStatus();
        var ok := ReturnToHomePosition(fails);
        homed := Some(ok);
        if ok {
          currentStep, taskState := TaskComplete, Completed;
        } else {
          taskState := Error;
        }
      } else if !stopFlag {
        currentStep, taskState := TaskComplete, Completed;
      } else {
        taskState := Idle;
      }
      UpdateStatus();
    }
  }
}
