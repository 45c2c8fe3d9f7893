/**
 * The host's input validators (`ValidationHelper` in `utils.py`) and its
 * `PerformanceMonitor` timer table. The validators are early-return checks; the
 * Chinese messages they return are replaced by the error each one reports.
 */
module Validation {
  import opened Outcomes
  import Config

  // ---------------------------------------------------------------- validate_position

  /** Why `validate_position` rejects a point, checked in this order. */
  datatype PositionError = WrongArity | XOutOfRange | YOutOfRange | ZOutOfRange

  /** The workspace box, in millimetres: x and y in [-500, 500], z in [0, 500]. */
  predicate InWorkspace(p: seq<real>)
  {
    |p| == 3 && -500.0 <= p[0] <= 500.0 && -500.0 <= p[1] <= 500.0 && 0.0 <= p[2] <= 500.0
  }

  /** `validate_position`: None when the point is accepted, else the first violation. */
  function ValidatePosition(p: seq<real>): (r: Option<PositionError>)
    ensures r.None? <==> InWorkspace(p)
    ensures r == Some(WrongArity) <==> |p| != 3
    ensures r == Some(XOutOfRange) <==> |p| == 3 && !(-500.0 <= p[0] <= 500.0)
    ensures r == Some(YOutOfRange) <==> |p| == 3 && -500.0 <= p[0] <= 500.0 && !(-500.0 <= p[1] <= 500.0)
    ensures r == Some(ZOutOfRange) <==> |p| == 3 && -500.0 <= p[0] <= 500.0 && -500.0 <= p[1] <= 500.0 && !(0.0 <= p[2] <= 500.0)
  {
    if |p| != 3 then Some(WrongArity)
    else if !(-500.0 <= p[0] <= 500.0) then Some(XOutOfRange)
    else if !(-500.0 <= p[1] <= 500.0) then Some(YOutOfRange)
    else if !(0.0 <= p[2] <= 500.0) then Some(ZOutOfRange)
    else None
  }

  /** The default target of the host lies in the workspace. */
  lemma DefaultTargetValid()
    ensures ValidatePosition(Config.DefaultTargetPosition) == None
  {
  }

  // ---------------------------------------------------------------- validate_servo_angle

  /** Why `validate_servo_angle` rejects an angle. */
  datatype AngleError = BadServoId | AngleOutOfRange(min: int, max: int)

  /** `validate_servo_angle`: the id must name a servo, then the angle must lie in its inclusive limits. */
  function ValidateServoAngle(id: int, angle: real): (r: Option<AngleError>)
    ensures r.None? <==>
              0 <= id < |Config.ServoLimits|
              && Config.ServoLimits[id].0 as real <= angle <= Config.ServoLimits[id].1 as real
    ensures r == Some(BadServoId) <==> !(0 <= id < 6)
    ensures r.Some? && r.value.AngleOutOfRange? ==>
              0 <= id < 6 && r.value == AngleOutOfRange(Config.ServoLimits[id].0, Config.ServoLimits[id].1)
  {
    if !(0 <= id < |Config.ServoLimits|) then Some(BadServoId)
    else
      var (lo, hi) := Config.ServoLimits[id];
      if !(lo as real <= angle <= hi as real) then Some(AngleOutOfRange(lo, hi)) else None
  }

  /** Every default angle passes `validate_servo_angle`. */
  lemma DefaultAnglesValid()
    ensures forall id :: 0 <= id < 6 ==> ValidateServoAngle(id, Config.DefaultAngles[id] as real) == None
  {
    Config.LimitsConsistent();
  }

  // ---------------------------------------------------------------- validate_task_points

  /** Why `validate_task_points` rejects a task; indices are 1-based as in the messages. */
  datatype TaskPointsError =
    | NoPickup
    | NoPlace
    | CountMismatch
    | BadPickup(index: nat, error: PositionError)
    | BadPlace(index: nat, error: PositionError)

  predicate AllInWorkspace(points: seq<seq<real>>)
  {
    forall k :: 0 <= k < |points| ==> InWorkspace(points[k])
  }

  /** `validate_task_points`: list checks first, then each pickup point, then each place point. */
  method ValidateTaskPoints(pickups: seq<seq<real>>, places: seq<seq<real>>) returns (r: Option<TaskPointsError>)
    ensures r.None? <==>
              pickups != [] && places != [] && |pickups| == |places|
              && AllInWorkspace(pickups) && AllInWorkspace(places)
    ensures r == Some(NoPickup) <==> pickups == []
    ensures r == Some(NoPlace) <==> pickups != [] && places == []
    ensures r == Some(CountMismatch) <==> pickups != [] && places != [] && |pickups| != |places|
    ensures r.Some? && r.value.BadPickup? ==>
              pickups != [] && |pickups| == |places|
              && 1 <= r.value.index <= |pickups|
              && ValidatePosition(pickups[r.value.index - 1]) == Some(r.value.error)
              && AllInWorkspace(pickups[..r.value.index - 1])
    ensures r.Some? && r.value.BadPlace? ==>
              places != [] && |pickups| == |places| && AllInWorkspace(pickups)
              && 1 <= r.value.index <= |places|
              && ValidatePosition(places[r.value.index - 1]) == Some(r.value.error)
              && AllInWorkspace(places[..r.value.index - 1])
  {
    if pickups == [] {
      return Some(NoPickup);
    }
    if places == [] {
      return Some(NoPlace);
    }
    if |pickups| != |places| {
      return Some(CountMismatch);
    }
    for i := 0 to |pickups|
      invariant AllInWorkspace(pickups[..i])
    {
      var v := ValidatePosition(pickups[i]);
      if v.Some? {
        return Some(BadPickup(i + 1, v.value));
      }
      assert pickups[..i + 1] == pickups[..i] + [pickups[i]];
    }
    assert pickups[..|pickups|] == pickups;
    for i := 0 to |places|
      invariant AllInWorkspace(places[..i])
    {
      var v := ValidatePosition(places[i]);
      if v.Some? {
        return Some(BadPlace(i + 1, v.value));
      }
      assert places[..i + 1] == places[..i] + [places[i]];
    }
    assert places[..|places|] == places;
    return None;
  }

  // ---------------------------------------------------------------- PerformanceMonitor

  /**
   * `PerformanceMonitor`: named start times. The clock reading `time.time()` is
   * passed in as `now`.
   */
  class PerformanceMonitor {
    var timers: map<string, real>

    constructor ()
      ensures timers == map[]
    {
      timers := map[];
    }

    /** `start_timer`: records `now` under `name`, replacing any earlier start. */
    method StartTimer(name: string, now: real)
      modifies this
      ensures timers == old(timers)[name := now]
      ensures name in timers && timers[name] == now
      ensures forall n :: n in old(timers) && n != name ==> n in timers && timers[n] == old(timers)[n]
    {
      timers := timers[name := now];
    }

    /** `end_timer`: the time since the named start, which is forgotten; 0 and no change for an unknown name. */
    method EndTimer(name: string, now: real) returns (elapsed: real)
      modifies this
      ensures name !in old(timers) ==> elapsed == 0.0 && timers == old(timers)
      ensures name in old(timers) ==> elapsed == now - old(timers)[name] && timers == old(timers) - {name}
      ensures name !in timers
    {
      if name in timers {
        elapsed := now - timers[name];
        timers := timers - {name};
      } else {
        elapsed := 0.0;
      }
    }
  }
}
