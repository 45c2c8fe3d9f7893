/**
 * The host's kinematics wrapper (`kinematics.py`): the affine maps between the six
 * servo angles (degrees) and the ten joint angles of the kinematic chain (radians),
 * and the iterative inverse-kinematics refinement around an external solver.
 *
 * The chain's solver, its forward kinematics and the vector norm belong to a
 * numerical library; they are parameters of the model (`Chain`). Angles are reals.
 */
module Kinematics {
  import opened Outcomes
  import Config

  /** `np.radians`, with `np.pi` as its double literal 3.141592653589793. */
  function Radians(deg: real): real { deg * 3.141592653589793 / 180.0 }

  /** `np.degrees`. */
  function Degrees(rad: real): real { rad * 180.0 / 3.141592653589793 }

  lemma DegreesRadians(x: real)
    ensures Degrees(Radians(x)) == x && Radians(Degrees(x)) == x
  {
  }

  // ---------------------------------------------------------------- the angle maps

  /** `servo_angle_to_chain_angle`: servos 0..4 become joints 0, 2, 4, 6, 8; the fixed links are 0. */
  function ServoToChain(a: seq<real>): (c: seq<real>)
    requires |a| >= 5
    ensures |c| == 10 && c[1] == c[3] == c[5] == c[7] == c[9] == 0.0
  {
    [Radians(a[0] - 190.0), 0.0,
     Radians(-(a[1] - 130.0)), 0.0,
     Radians(a[2] - 130.0), 0.0,
     Radians(a[3] - 130.0), 0.0,
     Radians(-(a[4] - 130.0)), 0.0]
  }

  /** `chain_angle_to_servo_angle`: joints 0, 2, 4, 6, 8 become servos 0..4; the gripper angle is passed through. */
  function ChainToServo(c: seq<real>, gripper: real): (a: seq<real>)
    requires |c| >= 9
    ensures |a| == 6 && a[5] == gripper
  {
    [Degrees(c[0]) + 190.0,
     -Degrees(c[2]) + 130.0,
     Degrees(c[4]) + 130.0,
     Degrees(c[6]) + 130.0,
     -Degrees(c[8]) + 130.0,
     gripper]
  }

  /** The joint offsets: servo 0 at 190 degrees and the others at 130 degrees are the chain's zero; servos 1 and 4 turn the other way. */
  lemma ChainZero(g: real)
    ensures ServoToChain([190.0, 130.0, 130.0, 130.0, 130.0, g]) == [0.0, 0.0, 0.0, 0.0, 0.0, 0.0, 0.0, 0.0, 0.0, 0.0]
    ensures forall a: seq<real>, d: real :: |a| >= 5 ==>
              ServoToChain(a[1 := a[1] + d])[2] == ServoToChain(a)[2] - Radians(d)
              && ServoToChain(a[4 := a[4] + d])[8] == ServoToChain(a)[8] - Radians(d)
  {
  }

  /** Servo angles to the chain and back: the five arm angles return, the gripper is the one supplied. */
  lemma ServoChainRoundTrip(a: seq<real>, g: real)
    requires |a| >= 5
    ensures ChainToServo(ServoToChain(a), g) == a[..5] + [g]
  {
    var c := ServoToChain(a);
    DegreesRadians(a[0] - 190.0);
    DegreesRadians(-(a[1] - 130.0));
    DegreesRadians(a[2] - 130.0);
    DegreesRadians(a[3] - 130.0);
    DegreesRadians(-(a[4] - 130.0));
  }

  /** Chain angles to servos and back: a ten-joint vector whose fixed links are 0 returns unchanged. */
  lemma ChainServoRoundTrip(c: seq<real>, g: real)
    requires |c| == 10 && c[1] == c[3] == c[5] == c[7] == c[9] == 0.0
    ensures ServoToChain(ChainToServo(c, g)) == c
  {
    DegreesRadians(c[0]);
    DegreesRadians(c[2]);
    DegreesRadians(c[4]);
    DegreesRadians(c[6]);
    DegreesRadians(c[8]);
  }

  // ---------------------------------------------------------------- clamping

  function Clamp(x: real, lo: real, hi: real): real
  {
    if x < lo then lo else if x > hi then hi else x
  }

  /** The limits of servo `j`, as reals. */
  function Lo(j: nat): real requires j < 6 { Config.ServoLimits[j].0 as real }
  function Hi(j: nat): real requires j < 6 { Config.ServoLimits[j].1 as real }

  predicate WithinLimits(a: seq<real>)
    requires |a| == 6
  {
    forall j :: 0 <= j < 5 ==> Lo(j) <= a[j] <= Hi(j)
  }

  /** `max(min_angle, min(max_angle, a_j))` for the five arm servos; the gripper is left alone. */
  function Clamped(a: seq<real>): (r: seq<real>)
    requires |a| == 6
    ensures |r| == 6 && WithinLimits(r) && r[5] == a[5]
    ensures forall j :: 0 <= j < 5 && Lo(j) <= a[j] <= Hi(j) ==> r[j] == a[j]
    ensures forall j :: 0 <= j < 5 && a[j] < Lo(j) ==> r[j] == Lo(j)
    ensures forall j :: 0 <= j < 5 && a[j] > Hi(j) ==> r[j] == Hi(j)
    ensures WithinLimits(a) ==> r == a
  {
    Config.LimitsConsistent();
    seq(6, j requires 0 <= j < 6 => if j < 5 then Clamp(a[j], Lo(j), Hi(j)) else a[j])
  }

  /** The `for j in range(5)` loop that clamps the solver's angles in place. */
  method ClampToLimits(a: seq<real>) returns (r: seq<real>)
    requires |a| == 6
    ensures r == Clamped(a)
  {
    r := a;
    for j := 0 to 5
      invariant |r| == 6
      invariant forall k :: 0 <= k < j ==> r[k] == Clamped(a)[k]
      invariant forall k :: j <= k < 6 ==> r[k] == a[k]
    {
      var (lo, hi) := Config.ServoLimits[j];
      r := r[j := Clamp(r[j], lo as real, hi as real)];
    }
  }

  /** `np.max(np.abs(a - b))`. */
  function MaxAbsDiff(a: seq<real>, b: seq<real>): (d: real)
    requires |a| == |b| > 0
    ensures forall k :: 0 <= k < |a| ==> Abs(a[k] - b[k]) <= d
    decreases |a|
  {
    if |a| == 1 then Abs(a[0] - b[0])
    else
      var rest := MaxAbsDiff(a[1..], b[1..]);
      assert forall k :: 1 <= k < |a| ==> a[k] - b[k] == a[1..][k - 1] - b[1..][k - 1];
      if Abs(a[0] - b[0]) >= rest then Abs(a[0] - b[0]) else rest
  }

  /** The maximum is attained: some coordinate differs by exactly `MaxAbsDiff`. */
  lemma {:induction false} MaxAbsDiffAttained(a: seq<real>, b: seq<real>) returns (k: nat)
    requires |a| == |b| > 0
    ensures k < |a| && Abs(a[k] - b[k]) == MaxAbsDiff(a, b)
    decreases |a|
  {
    if |a| == 1 {
      k := 0;
    } else if Abs(a[0] - b[0]) >= MaxAbsDiff(a[1..], b[1..]) {
      k := 0;
    } else {
      var j := MaxAbsDiffAttained(a[1..], b[1..]);
      k := j + 1;
    }
  }

  function Abs(x: real): real { if x < 0.0 then -x else x }

  // ---------------------------------------------------------------- inverse kinematics

  /** Three Cartesian coordinates. */
  type Vec3 = s: seq<real> | |s| == 3 witness [0.0, 0.0, 0.0]

  /**
   * The external chain: `solve(target, seed)` is `inverse_kinematics_frame` (None when
   * it raises), `position(joints)` the translation part of `forward_kinematics`, and
   * `norm` the Euclidean norm.
   */
  datatype Chain = Chain(
    solve: (Vec3, seq<real>) -> Option<seq<real>>,
    position: seq<real> -> Vec3,
    norm: Vec3 -> real)

  const MaxIter: nat := 10
  const Tol: real := 0.001

  /** `forward_kinematics(servo_angles)`. */
  function ForwardKinematics(chain: Chain, a: seq<real>): Vec3
    requires |a| >= 5
  {
    chain.position(ServoToChain(a))
  }

  /** `np.linalg.norm(fk_pos - target_position)`. */
  function PoseError(chain: Chain, target: Vec3, a: seq<real>): real
    requires |a| >= 5
  {
    var p := ForwardKinematics(chain, a);
    chain.norm([p[0] - target[0], p[1] - target[1], p[2] - target[2]])
  }

  /** One pass of the loop: solve from `seed`, map back to servo angles with the given gripper, clamp. None when the pass raises. */
  function Attempt(chain: Chain, target: Vec3, gripper: real, seed: seq<real>): Option<seq<real>>
  {
    match chain.solve(target, seed)
    case None => None
    case Some(c) => if |c| < 9 then None else Some(Clamped(ChainToServo(c, gripper)))
  }

  /** A pass that does not raise gives six angles within the limits, with the gripper angle it was given. */
  lemma AttemptShape(chain: Chain, target: Vec3, gripper: real, seed: seq<real>)
    ensures var r := Attempt(chain, target, gripper, seed);
            r.Some? ==> |r.value| == 6 && WithinLimits(r.value) && r.value[5] == gripper
  {
  }

  predicate Shaped(trace: seq<seq<real>>)
  {
    forall k :: 0 <= k < |trace| ==> |trace[k]| == 6
  }

  /** The seed of the pass after `trace`: the current angles for the first pass, the previous clamped result after. */
  function Seed(current: seq<real>, trace: seq<seq<real>>): seq<real>
    requires |current| >= 5 && Shaped(trace)
  {
    if trace == [] then ServoToChain(current) else ServoToChain(trace[|trace| - 1])
  }

  /** Every recorded pass is the attempt seeded by its predecessor. */
  predicate Refines(chain: Chain, target: Vec3, current: seq<real>, trace: seq<seq<real>>)
    requires |current| >= 6 && Shaped(trace)
    decreases |trace|
  {
    trace == []
    || var prior := trace[..|trace| - 1];
       Refines(chain, target, current, prior)
       && Attempt(chain, target, current[5], Seed(current, prior)) == Some(trace[|trace| - 1])
  }

  /** Pass `k` changed no angle by `Tol` or more since pass `k - 1`. */
  predicate Converged(trace: seq<seq<real>>, k: nat)
    requires Shaped(trace) && k < |trace|
  {
    k >= 1 && MaxAbsDiff(trace[k], trace[k - 1]) < Tol
  }

  /** The newest pass converged. */
  predicate LastConverged(trace: seq<seq<real>>)
    requires Shaped(trace)
  {
    trace != [] && Converged(trace, |trace| - 1)
  }

  /** No pass before the last one converged. */
  predicate Unconverged(trace: seq<seq<real>>)
    requires Shaped(trace)
  {
    forall k :: 0 <= k < |trace| - 1 ==> !Converged(trace, k)
  }

  /** Pass `best` has the smallest error of the trace, `m`, and is the first to reach it. */
  predicate FirstMinimum(chain: Chain, target: Vec3, trace: seq<seq<real>>, best: nat, m: real)
    requires Shaped(trace)
  {
    best < |trace| && m == PoseError(chain, target, trace[best])
    && (forall k :: 0 <= k < best ==> m < PoseError(chain, target, trace[k]))
    && (forall k :: 0 <= k < |trace| ==> m <= PoseError(chain, target, trace[k]))
  }

  lemma RefinesSnoc(chain: Chain, target: Vec3, current: seq<real>, trace: seq<seq<real>>, a: seq<real>)
    requires |current| >= 6 && Shaped(trace) && |a| == 6 && Refines(chain, target, current, trace)
    requires Attempt(chain, target, current[5], Seed(current, trace)) == Some(a)
    ensures Shaped(trace + [a]) && Refines(chain, target, current, trace + [a])
    ensures Seed(current, trace + [a]) == ServoToChain(a)
  {
    assert (trace + [a])[..|trace|] == trace;
  }

  lemma ConvergedSnoc(trace: seq<seq<real>>, a: seq<real>)
    requires Shaped(trace) && |a| == 6 && Unconverged(trace) && !LastConverged(trace)
    ensures Shaped(trace + [a]) && Unconverged(trace + [a]) && (trace + [a])[|trace + [a]| - 1] == a
    ensures LastConverged(trace + [a]) <==> trace != [] && MaxAbsDiff(a, trace[|trace| - 1]) < Tol
  {
    var t := trace + [a];
    forall k | 0 <= k < |trace| ensures Converged(t, k) == Converged(trace, k) {
      if k >= 1 {
        assert t[k] == trace[k] && t[k - 1] == trace[k - 1];
      }
    }
  }

  lemma {:induction false} FirstMinimumSnoc(chain: Chain, target: Vec3, trace: seq<seq<real>>, best: nat, m: real, a: seq<real>)
    requires Shaped(trace) && |a| == 6
    requires trace != [] ==> FirstMinimum(chain, target, trace, best, m)
    ensures trace == [] || PoseError(chain, target, a) < m ==>
              FirstMinimum(chain, target, trace + [a], |trace|, PoseError(chain, target, a))
    ensures trace != [] && PoseError(chain, target, a) >= m ==>
              FirstMinimum(chain, target, trace + [a], best, m)
  {
    var t := trace + [a];
    assert t[|trace|] == a;
    assert forall k :: 0 <= k < |trace| ==> t[k] == trace[k];
  }

  datatype IkResult = IndexError | BadTarget | Failed | Solved(angles: seq<real>, error: real)

  /**
   * What the loop of `inverse_kinematics` answers once the passes in `trace` are made,
   * `best` being the first pass of smallest error `m`: the best pass after `MaxIter`
   * passes or after a converged one; Failed when the next pass raises.
   */
  function Continue(chain: Chain, target: Vec3, current: seq<real>, trace: seq<seq<real>>, best: nat, m: real): IkResult
    requires |current| >= 6 && Shaped(trace) && |trace| <= MaxIter && (trace != [] ==> best < |trace|)
    decreases MaxIter - |trace|
  {
    if |trace| == MaxIter || LastConverged(trace) then Solved(trace[best], m)
    else
      match Attempt(chain, target, current[5], Seed(current, trace))
      case None => Failed
      case Some(a) =>
        var e := PoseError(chain, target, a);
        if trace == [] || e < m then Continue(chain, target, current, trace + [a], |trace|, e)
        else Continue(chain, target, current, trace + [a], best, m)
  }

  /** The answer of `inverse_kinematics(target, current)`, the error cases first. */
  function IkAnswer(chain: Chain, target: seq<real>, current: seq<real>): IkResult
  {
    if |current| < 5 then IndexError
    else if |target| != 3 then BadTarget
    else if |current| < 6 then Failed
    else Continue(chain, target, current, [], 0, 0.0)
  }

  /** The loop answers Failed, or one of its passes: six angles within the limits with the gripper angle kept. */
  lemma {:induction false} ContinueAnswer(chain: Chain, target: Vec3, current: seq<real>, trace: seq<seq<real>>, best: nat, m: real)
    requires |current| >= 6 && Shaped(trace) && |trace| <= MaxIter && (trace != [] ==> best < |trace|)
    requires forall k :: 0 <= k < |trace| ==> WithinLimits(trace[k]) && trace[k][5] == current[5]
    ensures var r := Continue(chain, target, current, trace, best, m);
            r.Failed? || (r.Solved? && |r.angles| == 6 && WithinLimits(r.angles) && r.angles[5] == current[5])
    decreases MaxIter - |trace|
  {
    if |trace| < MaxIter && !LastConverged(trace) {
      match Attempt(chain, target, current[5], Seed(current, trace))
      case None =>
      case Some(a) =>
        var t := trace + [a];
        assert forall k :: 0 <= k < |t| ==> t[k] == if k < |trace| then trace[k] else a;
        var e := PoseError(chain, target, a);
        if trace == [] || e < m {
          ContinueAnswer(chain, target, current, t, |trace|, e);
        } else {
          ContinueAnswer(chain, target, current, t, best, m);
        }
    }
  }

  /** With enough current angles and a three-coordinate target, the solver fails or answers angles within the limits. */
  lemma IkAnswerInLimits(chain: Chain, target: seq<real>, current: seq<real>)
    requires |current| >= 6 && |target| == 3
    ensures var r := IkAnswer(chain, target, current);
            r.Failed? || (r.Solved? && |r.angles| == 6 && WithinLimits(r.angles) && r.angles[5] == current[5])
  {
    ContinueAnswer(chain, target, current, [], 0, 0.0);
  }

  /** One more pass of the loop, when it neither stopped before nor raises now. */
  lemma ContinueStep(chain: Chain, target: Vec3, current: seq<real>, trace: seq<seq<real>>, best: nat, m: real, a: seq<real>)
    requires |current| >= 6 && Shaped(trace) && |trace| < MaxIter && !LastConverged(trace) && (trace != [] ==> best < |trace|)
    requires Attempt(chain, target, current[5], Seed(current, trace)) == Some(a)
    ensures Shaped(trace + [a])
    ensures trace == [] || PoseError(chain, target, a) < m ==>
              Continue(chain, target, current, trace, best, m) ==
              Continue(chain, target, current, trace + [a], |trace|, PoseError(chain, target, a))
    ensures trace != [] && PoseError(chain, target, a) >= m ==>
              Continue(chain, target, current, trace, best, m) == Continue(chain, target, current, trace + [a], best, m)
  {
  }

  /**
   * `inverse_kinematics`: up to `MaxIter` passes, each seeded from the previous clamped
   * result, stopping after the first pass that converged; the answer is the first pass
   * with the smallest error. `trace` records the clamped result of every pass and
   * `best` the index of the answer.
   */
  method InverseKinematics(chain: Chain, target: seq<real>, current: seq<real>)
    returns (r: IkResult, ghost trace: seq<seq<real>>, ghost best: nat)
    ensures r == IkAnswer(chain, target, current)
    ensures r == IndexError <==> |current| < 5
    ensures r == BadTarget <==> |current| >= 5 && |target| != 3
    ensures |current| == 5 && |target| == 3 ==> r == Failed
    ensures r.Failed? && |current| >= 6 ==>
              |target| == 3 && Shaped(trace) && Refines(chain, target, current, trace) && |trace| < MaxIter
              && Unconverged(trace) && !LastConverged(trace)
              && Attempt(chain, target, current[5], Seed(current, trace)) == None
    ensures r.Solved? ==>
              |target| == 3 && |current| >= 6 && Shaped(trace) && Refines(chain, target, current, trace)
              && 1 <= |trace| <= MaxIter && Unconverged(trace)
              && (|trace| == MaxIter || LastConverged(trace))
    ensures r.Solved? ==>
              FirstMinimum(chain, target, trace, best, r.error) && r.angles == trace[best]
              && |r.angles| == 6 && WithinLimits(r.angles) && r.angles[5] == current[5]
  {
    trace, best := [], 0;
    if |current| < 5 {
      return IndexError, trace, best;
    }
    var initial := ServoToChain(current);
    if |target| != 3 {
      return BadTarget, trace, best;
    }
    if |current| < 6 {
      // the first pass reads current_angles[5], which raises inside the try
      return Failed, trace, best;
    }
    r, trace, best := Refine(chain, target, current, initial);
  }

  /** The `for i in range(max_iter)` loop of `inverse_kinematics`, from the seed `initial`. */
  method Refine(chain: Chain, goal: Vec3, current: seq<real>, initial: seq<real>)
    returns (r: IkResult, ghost trace: seq<seq<real>>, ghost best: nat)
    requires |current| >= 6 && initial == ServoToChain(current)
    ensures r == Continue(chain, goal, current, [], 0, 0.0)
    ensures r.Failed? || r.Solved?
    ensures r.Failed? ==>
              Shaped(trace) && Refines(chain, goal, current, trace) && |trace| < MaxIter
              && Unconverged(trace) && !LastConverged(trace)
              && Attempt(chain, goal, current[5], Seed(current, trace)) == None
    ensures r.Solved? ==>
              Shaped(trace) && Refines(chain, goal, current, trace)
              && 1 <= |trace| <= MaxIter && Unconverged(trace)
              && (|trace| == MaxIter || LastConverged(trace))
              && FirstMinimum(chain, goal, trace, best, r.error) && r.angles == trace[best]
              && |r.angles| == 6 && WithinLimits(r.angles) && r.angles[5] == current[5]
  {
    trace, best := [], 0;
    var minError: real := 0.0;
    var bestAngles: seq<real> := [];
    var seed := initial;
    var converged := false;
    var iter := 0;
    var prevAngles: seq<real> := [];
    while iter < MaxIter && !converged
      invariant iter == |trace| <= MaxIter
      invariant Shaped(trace) && Refines(chain, goal, current, trace) && Unconverged(trace) && seed == Seed(current, trace)
      invariant converged <==> LastConverged(trace)
      invariant trace != [] ==> prevAngles == trace[|trace| - 1] && FirstMinimum(chain, goal, trace, best, minError)
      invariant trace != [] ==> bestAngles == trace[best] && |bestAngles| == 6 && WithinLimits(bestAngles) && bestAngles[5] == current[5]
      invariant Continue(chain, goal, current, trace, best, minError) == Continue(chain, goal, current, [], 0, 0.0)
      decreases MaxIter - iter
    {
      var pass := SolvePass(chain, goal, current[5], seed);
      if pass.None? {
        return Failed, trace, best;
      }
      var angles := pass.value;
      RefinesSnoc(chain, goal, current, trace, angles);
      ContinueStep(chain, goal, current, trace, best, minError, angles);
      best, minError, bestAngles := KeepBest(chain, goal, trace, best, minError, bestAngles, angles, iter == 0);
      converged := CheckConvergence(trace, prevAngles, angles, iter);
      trace := trace + [angles];
      prevAngles := angles;
      seed := ServoToChain(angles);
      iter := iter + 1;
    }
    return Solved(bestAngles, minError), trace, best;
  }

  /** `if error < min_error`: the first pass, or a strictly better one, becomes the best. */
  method KeepBest(chain: Chain, goal: Vec3, ghost trace: seq<seq<real>>, ghost best: nat, minError: real,
                  bestAngles: seq<real>, angles: seq<real>, first: bool)
    returns (ghost best': nat, minError': real, bestAngles': seq<real>)
    requires Shaped(trace) && |angles| == 6 && (first <==> trace == [])
    requires !first ==> FirstMinimum(chain, goal, trace, best, minError) && bestAngles == trace[best]
    ensures Shaped(trace + [angles]) && FirstMinimum(chain, goal, trace + [angles], best', minError')
    ensures bestAngles' == (trace + [angles])[best']
    ensures first || PoseError(chain, goal, angles) < minError ==>
              best' == |trace| && minError' == PoseError(chain, goal, angles) && bestAngles' == angles
    ensures !first && PoseError(chain, goal, angles) >= minError ==>
              best' == best && minError' == minError && bestAngles' == bestAngles
  {
    FirstMinimumSnoc(chain, goal, trace, best, minError, angles);
    var error := PoseError(chain, goal, angles);
    assert (trace + [angles])[|trace|] == angles;
    if first || error < minError {
      best', minError', bestAngles' := |trace|, error, angles;
    } else {
      best', minError', bestAngles' := best, minError, bestAngles;
      assert (trace + [angles])[best] == trace[best];
    }
  }

  /** The convergence test on the pass `angles` after `trace`: from the second pass on, every angle moved by less than `Tol`. */
  method CheckConvergence(ghost trace: seq<seq<real>>, prevAngles: seq<real>, angles: seq<real>, iter: nat)
    returns (converged: bool)
    requires Shaped(trace) && Unconverged(trace) && !LastConverged(trace) && |angles| == 6 && iter == |trace|
    requires trace != [] ==> prevAngles == trace[|trace| - 1]
    ensures Shaped(trace + [angles]) && Unconverged(trace + [angles]) && (trace + [angles])[|trace + [angles]| - 1] == angles
    ensures converged <==> LastConverged(trace + [angles])
  {
    ConvergedSnoc(trace, angles);
    converged := false;
    if iter > 0 {
      var diff := MaxAbsDiff(angles, prevAngles);
      converged := diff < Tol;
    }
  }

  /** The body of one pass: `inverse_kinematics_frame`, `chain_angle_to_servo_angle`, then the clamp loop. */
  method SolvePass(chain: Chain, goal: Vec3, gripper: real, seed: seq<real>) returns (a: Option<seq<real>>)
    ensures a == Attempt(chain, goal, gripper, seed)
  {
    var solution := chain.solve(goal, seed);
    if solution.None? || |solution.value| < 9 {
      return None;
    }
    var angles := ChainToServo(solution.value, gripper);
    angles := ClampToLimits(angles);
    return Some(angles);
  }
}
