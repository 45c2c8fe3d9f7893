/**
 * The host's constants and enumerations (`config.py`): servo angle limits and defaults,
 * gripper positions, the default target, the automatic-task defaults and the task states
 * and steps.
 */
module Config {
  import Servo
  import Sequencer

  /** `DEFAULT_ANGLES`, in degrees. */
  const DefaultAngles: seq<int> := [190, 130, 130, 130, 130, 130]

  /** `SERVO_LIMITS`: the inclusive angle range of each servo, in degrees. */
  const ServoLimits: seq<(int, int)> := [(0, 270), (50, 210), (20, 250), (40, 210), (40, 210), (100, 175)]

  const GripperOpen: int := 100
  const GripperClose: int := 175

  /** `DEFAULT_TARGET_POSITION`, in millimetres. */
  const DefaultTargetPosition: seq<real> := [150.0, 0.0, 200.0]

  /** The parameters of an automatic task. */
  datatype TaskParams = TaskParams(
    safeHeight: real, heightOffset: real, gripDelay: real, moveDelay: real, autoSpeed: int, returnHome: bool)

  /** `AUTO_TASK_DEFAULTS`. */
  const AutoTaskDefaults: TaskParams := TaskParams(250.0, 30.0, 2.0, 3.0, 2, true)

  /** `TaskState`. */
  datatype TaskState = Idle | Running | Paused | Completed | Error

  /** `AutoTaskStep`. */
  datatype AutoTaskStep =
    | MoveToSafeHeight | MoveToPickupAbove | MoveToPickup | GripClose | MoveUpFromPickup
    | MoveToPlaceAbove | MoveToPlace | GripOpen | MoveUpFromPlace | ReturnHome | TaskComplete

  /** The members of `AutoTaskStep` in declaration order. */
  const AutoTaskSteps: seq<AutoTaskStep> :=
    [MoveToSafeHeight, MoveToPickupAbove, MoveToPickup, GripClose, MoveUpFromPickup,
     MoveToPlaceAbove, MoveToPlace, GripOpen, MoveUpFromPlace, ReturnHome, TaskComplete]

  /** Every default angle lies in its servo's range, and every range is non-empty. */
  lemma LimitsConsistent()
    ensures |DefaultAngles| == |ServoLimits| == 6
    ensures forall i :: 0 <= i < 6 ==> ServoLimits[i].0 < ServoLimits[i].1
    ensures forall i :: 0 <= i < 6 ==> ServoLimits[i].0 <= DefaultAngles[i] <= ServoLimits[i].1
  {
  }

  /** Both gripper positions lie in the gripper servo's range, open below closed. */
  lemma GripperInRange()
    ensures ServoLimits[5].0 <= GripperOpen < GripperClose <= ServoLimits[5].1
  {
  }

  /** The host's limits and defaults are the firmware's `servo_params`, and the defaults are the firmware's home pose. */
  lemma AgreesWithFirmware()
    ensures forall i :: 0 <= i < 6 ==>
              ServoLimits[i] == (Servo.Params[i].0 as int, Servo.Params[i].1 as int)
              && DefaultAngles[i] == Servo.Params[i].2 as int
              && DefaultAngles[i] == Sequencer.Home[i] as int
  {
  }

  /** The steps are all distinct. */
  lemma StepsDistinct()
    ensures forall i, j :: 0 <= i < j < |AutoTaskSteps| ==> AutoTaskSteps[i] != AutoTaskSteps[j]
    ensures forall s: AutoTaskStep :: s in AutoTaskSteps
  {
    forall s: AutoTaskStep ensures s in AutoTaskSteps {
      match s
      case MoveToSafeHeight => assert AutoTaskSteps[0] == s;
      case MoveToPickupAbove => assert AutoTaskSteps[1] == s;
      case MoveToPickup => assert AutoTaskSteps[2] == s;
      case GripClose => assert AutoTaskSteps[3] == s;
      case MoveUpFromPickup => assert AutoTaskSteps[4] == s;
      case MoveToPlaceAbove => assert AutoTaskSteps[5] == s;
      case MoveToPlace => assert AutoTaskSteps[6] == s;
      case GripOpen => assert AutoTaskSteps[7] == s;
      case MoveUpFromPlace => assert AutoTaskSteps[8] == s;
      case ReturnHome => assert AutoTaskSteps[9] == s;
      case TaskComplete => assert AutoTaskSteps[10] == s;
    }
  }
}
