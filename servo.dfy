/**
 * The firmware's servo motion engine. Six servos live in one table; a write
 * only records a target pulse (`end`), and `Run` then walks every servo one
 * pulse unit per step toward its target, servo `i` on the ticks that are
 * multiples of its `delay`, until all are at rest or a stop request freezes
 * them where they are.
 */
module Servo {
  import opened Outcomes
  import opened Text
  import opened Protocol

  /** `servo_num()`: the size of the servo table. */
  const Count: nat := 6

  const U16: nat := 0x1_0000
  const U32: nat := 0x1_0000_0000

  /** One entry of the servo table (`struct servo` without its timer and channel handles). */
  datatype ServoState = ServoState(
    pulse: nat,     // current pulse width
    min: nat,       // smallest pulse width
    max: nat,       // largest pulse width
    angleMin: nat,  // smallest angle
    angleMax: nat,  // largest angle
    begin: nat,     // pulse width where the current motion started
    end: nat,       // pulse width the current motion heads for
    delay: nat,     // ticks between two steps
    adjust: int)    // trim added to every pulse written to the hardware

  /** Calibration that `servos_init_all` establishes: ordered ranges that fit 16 bits. */
  predicate Calibrated(s: ServoState)
  {
    s.angleMin <= s.angleMax < U16 && s.min <= s.max < U16
  }

  // ---------------------------------------------------------------- angle to pulse

  function ClampAngle(s: ServoState, angle: nat): (a: nat)
  {
    var a := if angle < s.angleMin then s.angleMin else angle;
    if a > s.angleMax then s.angleMax else a
  }

  /**
   * `angle_to_pulse`: clamp the angle into the servo's range, then map it
   * linearly onto the pulse range with 32-bit unsigned products and
   * quotients, truncated to 16 bits as the C code does.
   */
  function AngleToPulse(s: ServoState, angle: nat): (p: nat)
  {
    var a := ClampAngle(s, angle);
    var pulseRange := (s.max - s.min) % U32;
    var angleRange := (s.angleMax - s.angleMin) % U32;
    if angleRange == 0 then s.min
    else (s.min + ((((a - s.angleMin) % U32) * pulseRange % U32) / angleRange) % U16) % U16
  }

  lemma MulMono(x: nat, y: nat, bound: nat)
    requires x <= bound
    ensures x * y <= bound * y
  {
  }

  /** Quotient and remainder are determined by `n == q * d + r` with `0 <= r < d`. */
  lemma DivUnique(n: int, d: int, q: int, r: int)
    requires d > 0 && 0 <= r < d && n == q * d + r
    ensures n / d == q && n % d == r
  {
    var q', r' := n / d, n % d;
    assert q' * d + r' == q * d + r;
    assert (q' - q) * d == r - r';
    if q' > q { MulMono(1, d, q' - q); }
    if q' < q { MulMono(1, d, q - q'); }
  }

  lemma DivStep(x: nat, d: nat)
    requires d > 0
    ensures x / d <= (x + 1) / d
  {
    var q, m := x / d, x % d;
    if m + 1 < d {
      DivUnique(x + 1, d, q, m + 1);
    } else {
      DivUnique(x + 1, d, q + 1, 0);
    }
  }

  lemma {:induction false} DivMono(x: nat, y: nat, d: nat)
    requires x <= y && d > 0
    ensures x / d <= y / d
    decreases y - x
  {
    if x < y {
      DivMono(x, y - 1, d);
      DivStep(y - 1, d);
    }
  }

  lemma MulDiv(x: nat, d: nat)
    requires d > 0
    ensures (d * x) / d == x && (x * d) / d == x
  {
    DivUnique(x * d, d, x, 0);
  }

  /** The exact linear map of a clamped angle onto the pulse range, above `min`. */
  function Scaled(s: ServoState, angle: nat): int
    requires Calibrated(s) && s.angleMin < s.angleMax
  {
    (ClampAngle(s, angle) - s.angleMin) * (s.max - s.min) / (s.angleMax - s.angleMin)
  }

  /** For a calibrated servo the 32-bit and 16-bit truncations never fire: the map is exact. */
  lemma {:induction false} AngleToPulseExact(s: ServoState, angle: nat)
    requires Calibrated(s) && s.angleMin < s.angleMax
    ensures AngleToPulse(s, angle) == s.min + Scaled(s, angle)
    ensures 0 <= Scaled(s, angle) <= s.max - s.min
  {
    var a := ClampAngle(s, angle);
    var x: nat, pr: nat, ar: nat := a - s.angleMin, s.max - s.min, s.angleMax - s.angleMin;
    SmallMod(x, U32);
    SmallMod(pr, U32);
    SmallMod(ar, U32);
    MulMono(x, pr, ar);
    MulMono(pr, ar, U16 - 1);
    MulMono(ar, U16 - 1, U16 - 1);
    MulMono(0, pr, x);
    assert 0 <= x * pr < U32;
    SmallMod(x * pr, U32);
    DivMono(x * pr, ar * pr, ar);
    DivMono(0, x * pr, ar);
    MulDiv(pr, ar);
    var q := x * pr / ar;
    assert 0 <= q <= pr;
    SmallMod(q, U16);
    SmallMod(s.min + q, U16);
  }

  /** The pulse lies in `[min, max]`; a zero angle range gives `min`. */
  lemma AngleToPulseRange(s: ServoState, angle: nat)
    requires Calibrated(s)
    ensures s.min <= AngleToPulse(s, angle) <= s.max
    ensures s.angleMin == s.angleMax ==> AngleToPulse(s, angle) == s.min
  {
    if s.angleMin < s.angleMax {
      AngleToPulseExact(s, angle);
    } else {
      assert (s.angleMax - s.angleMin) % U32 == 0;
    }
  }

  /** The ends of the angle range map to the ends of the pulse range. */
  lemma AngleToPulseEnds(s: ServoState)
    requires Calibrated(s) && s.angleMin < s.angleMax
    ensures AngleToPulse(s, s.angleMin) == s.min
    ensures AngleToPulse(s, s.angleMax) == s.max
  {
    AngleToPulseExact(s, s.angleMin);
    AngleToPulseExact(s, s.angleMax);
    var ar: nat, pr: nat := s.angleMax - s.angleMin, s.max - s.min;
    assert ClampAngle(s, s.angleMax) - s.angleMin == ar;
    MulDiv(pr, ar);
    assert Scaled(s, s.angleMax) == ar * pr / ar == pr;
    assert Scaled(s, s.angleMin) == 0 * pr / ar == 0;
  }

  /** Angles outside the range are clamped to its ends before they are mapped. */
  lemma AngleToPulseClamps(s: ServoState, angle: nat)
    ensures angle <= s.angleMin && s.angleMin <= s.angleMax ==> AngleToPulse(s, angle) == AngleToPulse(s, s.angleMin)
    ensures angle >= s.angleMax ==> AngleToPulse(s, angle) == AngleToPulse(s, s.angleMax)
  {
    if angle <= s.angleMin && s.angleMin <= s.angleMax {
      assert ClampAngle(s, angle) == ClampAngle(s, s.angleMin);
    }
    if angle >= s.angleMax {
      assert ClampAngle(s, angle) == ClampAngle(s, s.angleMax);
    }
  }

  /** A larger angle never gives a smaller pulse. */
  lemma AngleToPulseMonotone(s: ServoState, a1: nat, a2: nat)
    requires Calibrated(s) && a1 <= a2
    ensures AngleToPulse(s, a1) <= AngleToPulse(s, a2)
  {
    if s.angleMin < s.angleMax {
      AngleToPulseExact(s, a1);
      AngleToPulseExact(s, a2);
      var x1: nat, x2: nat := ClampAngle(s, a1) - s.angleMin, ClampAngle(s, a2) - s.angleMin;
      MulMono(x1, s.max - s.min, x2);
      DivMono(x1 * (s.max - s.min), x2 * (s.max - s.min), s.angleMax - s.angleMin);
      assert Scaled(s, a1) <= Scaled(s, a2);
    }
  }

  // ---------------------------------------------------------------- targets and steps

  /** `servo_write` on one entry: clamp the target into `[min, max]`, raise a zero delay to 1, start from the current pulse. */
  function WriteServo(s: ServoState, target: nat, delay: nat): (r: ServoState)
    ensures r.pulse == s.pulse && r.begin == s.pulse && r.delay >= 1
    ensures delay >= 1 ==> r.delay == delay
    ensures s.min <= s.max ==> s.min <= r.end <= s.max
    ensures s.min <= target <= s.max ==> r.end == target
    ensures s.min <= s.max && target < s.min ==> r.end == s.min
    ensures target > s.max ==> r.end == s.max
    ensures s.max < s.min && target < s.min ==> r.end == s.max
    ensures r == s.(begin := r.begin, end := r.end, delay := r.delay)
  {
    var t := if target < s.min then s.min else target;
    var t := if t > s.max then s.max else t;
    s.(begin := s.pulse, end := t, delay := if delay < 1 then 1 else delay)
  }

  /** The distance still to travel. */
  function Dist(s: ServoState): nat
  {
    if s.pulse <= s.end then s.end - s.pulse else s.pulse - s.end
  }

  predicate Between(x: int, a: int, b: int)
  {
    (a <= x <= b) || (b <= x <= a)
  }

  /** `servo_step` on one entry: one pulse unit toward `end`; a servo at rest stays put. */
  function Step(s: ServoState): (r: ServoState)
    ensures r == s.(pulse := r.pulse)
    ensures Dist(s) == 0 ==> r == s
    ensures Dist(s) > 0 ==> Dist(r) == Dist(s) - 1
    ensures Between(r.pulse, s.pulse, s.end)
  {
    if s.pulse == s.end then s
    else if s.pulse > s.end then s.(pulse := s.pulse - 1)
    else s.(pulse := s.pulse + 1)
  }

  /**
   * `servo_pulse`'s guard: the argument is truncated to its `uint16_t` parameter, then
   * clamped into `[500, 2500]` before it reaches the timer.
   */
  function HardwarePulse(value: int): (r: nat)
    ensures 500 <= r <= 2500
    ensures 500 <= value <= 2500 ==> r == value
    ensures value % U16 < 500 ==> r == 500
    ensures value % U16 > 2500 ==> r == 2500
    ensures 500 <= value % U16 <= 2500 ==> r == value % U16
  {
    var p := value % U16;
    if p < 500 then 500 else if p > 2500 then 2500 else p
  }

  /**
   * A trimmed pulse `pulse + adjust` below 0 (a negative `int16_t` trim) wraps in the
   * `uint16_t` parameter and reaches the timer at the far end, 2500, rather than at 500.
   */
  lemma NegativePulseWraps(value: int)
    requires -63035 <= value < 0
    ensures HardwarePulse(value) == 2500
  {
  }

  // ---------------------------------------------------------------- ticks

  /** What one tick of `servo_run` does to one servo at tick `t`. */
  function TickServo(s: ServoState, t: nat): (r: ServoState)
    requires s.delay >= 1
  {
    if s.pulse != s.end && t % s.delay == 0 then Step(s) else s
  }

  /** Ticks a moving servo still needs: a step every `delay` ticks, the next one on the next multiple of `delay`. */
  function Remaining(s: ServoState, t: nat): nat
    requires s.delay >= 1
  {
    if Dist(s) == 0 then 0
    else (Dist(s) - 1) * s.delay + (s.delay - t % s.delay) % s.delay + 1
  }

  lemma ModNext(t: nat, d: nat)
    requires d >= 1
    ensures (t + 1) % d == if t % d + 1 == d then 0 else t % d + 1
    ensures d % d == 0
  {
    var q, m := t / d, t % d;
    if m + 1 == d {
      DivUnique(t + 1, d, q + 1, 0);
    } else {
      DivUnique(t + 1, d, q, m + 1);
    }
    DivUnique(d, d, 1, 0);
  }

  lemma SmallMod(x: int, d: int)
    requires 0 <= x < d
    ensures x % d == x
  {
    DivUnique(x, d, 0, x);
  }

  /** Every tick brings a moving servo exactly one tick closer to rest. */
  lemma {:induction false} TickRemaining(s: ServoState, t: nat)
    requires s.delay >= 1
    ensures TickServo(s, t).delay == s.delay
    ensures Dist(s) == 0 ==> TickServo(s, t) == s && Remaining(s, t + 1) == 0
    ensures Dist(s) > 0 ==> Remaining(TickServo(s, t), t + 1) == Remaining(s, t) - 1
  {
    var d := s.delay;
    ModNext(t, d);
    if Dist(s) > 0 {
      var n := Dist(s) - 1;
      var m := t % d;
      assert Remaining(s, t) == n * d + (d - m) % d + 1;
      if m == 0 {
        var r := Step(s);
        assert Remaining(s, t) == n * d + 1;
        if n > 0 {
          if d > 1 {
            SmallMod(d - 1, d);
            assert Remaining(r, t + 1) == (n - 1) * d + (d - 1) + 1;
            assert (n - 1) * d + d == n * d;
          } else {
            assert Remaining(r, t + 1) == (n - 1) * d + 0 + 1;
          }
        }
      } else {
        SmallMod(d - m, d);
        if m + 1 < d {
          SmallMod(d - m - 1, d);
        }
        assert Remaining(s, t + 1) == n * d + (d - m - 1) + 1;
      }
    }
  }

  /** The table's total remaining ticks. */
  function TotalRemaining(ss: seq<ServoState>, t: nat): nat
    requires forall i :: 0 <= i < |ss| ==> ss[i].delay >= 1
  {
    if ss == [] then 0 else Remaining(ss[0], t) + TotalRemaining(ss[1..], t)
  }

  /** One tick applied to every servo of the table. */
  function Tick(ss: seq<ServoState>, t: nat): (r: seq<ServoState>)
    requires forall i :: 0 <= i < |ss| ==> ss[i].delay >= 1
    ensures |r| == |ss| && forall i :: 0 <= i < |ss| ==> r[i] == TickServo(ss[i], t)
  {
    seq(|ss|, i requires 0 <= i < |ss| => TickServo(ss[i], t))
  }

  predicate AtRest(ss: seq<ServoState>)
  {
    forall i :: 0 <= i < |ss| ==> ss[i].pulse == ss[i].end
  }

  /** A tick in which some servo still moves lowers the total remaining ticks. */
  lemma {:induction false} TickDecreases(ss: seq<ServoState>, t: nat)
    requires forall i :: 0 <= i < |ss| ==> ss[i].delay >= 1
    ensures forall i :: 0 <= i < |ss| ==> Tick(ss, t)[i].delay >= 1
    ensures TotalRemaining(Tick(ss, t), t + 1) <= TotalRemaining(ss, t)
    ensures !AtRest(ss) ==> TotalRemaining(Tick(ss, t), t + 1) < TotalRemaining(ss, t)
    decreases |ss|
  {
    if ss != [] {
      TickRemaining(ss[0], t);
      forall i | 0 <= i < |ss| ensures Tick(ss, t)[i].delay >= 1 {
        TickRemaining(ss[i], t);
      }
      assert Tick(ss, t)[1..] == Tick(ss[1..], t);
      TickDecreases(ss[1..], t);
      if !AtRest(ss) && ss[0].pulse == ss[0].end {
        var i :| 0 <= i < |ss| && ss[i].pulse != ss[i].end;
        assert ss[1..][i - 1] == ss[i];
      }
    }
  }

  /** Every servo parked at its current pulse, as the stop branch of `servo_run` leaves it. */
  function Freeze(ss: seq<ServoState>): (r: seq<ServoState>)
    ensures |r| == |ss| && AtRest(r)
    ensures forall i :: 0 <= i < |ss| ==> r[i] == ss[i].(end := ss[i].pulse)
  {
    seq(|ss|, i requires 0 <= i < |ss| => ss[i].(end := ss[i].pulse))
  }

  /** Every servo arrived at its target, as an uninterrupted `servo_run` leaves it. */
  function Settle(ss: seq<ServoState>): (r: seq<ServoState>)
    ensures |r| == |ss| && AtRest(r)
    ensures forall i :: 0 <= i < |ss| ==> r[i] == ss[i].(pulse := ss[i].end)
  {
    seq(|ss|, i requires 0 <= i < |ss| => ss[i].(pulse := ss[i].end))
  }

  // ---------------------------------------------------------------- initialisation

  /** `servo_params` of `servos_init_all`: smallest angle, largest angle and initial angle of each servo. */
  const Params: seq<(nat, nat, nat)> :=
    [(0, 270, 190), (50, 210, 130), (20, 250, 130), (40, 210, 130), (40, 210, 130), (100, 175, 130)]

  /** `min_p` / `max_p` of `servos_init_all`: a degree of the 0..270 scale on the 500..2500 pulse scale. */
  function BasePulse(angle: nat): nat
  {
    500 + angle * (2500 - 500) / 270
  }

  /** The table entry `servo_init` leaves: calibration stored, at rest at the initial angle's pulse. */
  function InitServo(initAngle: nat, minA: nat, maxA: nat, minP: nat, maxP: nat): (r: ServoState)
    ensures r.angleMin == minA && r.angleMax == maxA && r.min == minP && r.max == maxP
    ensures r.delay == 1 && r.adjust == 0
    ensures r.pulse == r.begin == r.end == AngleToPulse(r, initAngle)
  {
    var c := ServoState(0, minP, maxP, minA, maxA, 0, 0, 1, 0);
    var p := AngleToPulse(c, initAngle);
    c.(pulse := p, begin := p, end := p)
  }

  /** Entry `id` after `servos_init_all`. */
  function InitialServo(id: nat): ServoState
    requires id < Count
  {
    var (minA, maxA, initA) := Params[id];
    InitServo(initA, minA, maxA, BasePulse(minA), BasePulse(maxA))
  }

  /** Every servo `servos_init_all` sets up has `500 <= min <= max <= 2500` and an ordered angle range. */
  lemma InitialCalibrated(id: nat)
    requires id < Count
    ensures Calibrated(InitialServo(id)) && InitialServo(id).angleMin < InitialServo(id).angleMax
    ensures 500 <= InitialServo(id).min <= InitialServo(id).max <= 2500
    ensures InitialServo(id).min <= InitialServo(id).pulse <= InitialServo(id).max
  {
    AngleToPulseRange(InitialServo(id), Params[id].2);
  }

  // ---------------------------------------------------------------- command effects as values

  /** `(uint8_t)` / `(uint16_t)` of an `int`: reduction modulo the width. */
  function U8Of(i: int): nat { i % 256 }
  function U16Of(i: int): nat { i % U16 }

  /** The effect of one scanned field on the table: `servo_write_angle((uint8_t)id, angle, delay)`. */
  function ApplyField(ss: seq<ServoState>, f: Field): (r: seq<ServoState>)
    requires |ss| == Count
    ensures |r| == Count
  {
    var id := U8Of(f.id);
    if id >= Count then ss
    else ss[id := WriteServo(ss[id], AngleToPulse(ss[id], U16Of(f.angle)), U16Of(f.speed))]
  }

  /** The effect of a list of fields, applied in order. */
  function ApplyFields(ss: seq<ServoState>, fs: seq<Field>): (r: seq<ServoState>)
    requires |ss| == Count
    ensures |r| == Count
    decreases |fs|
  {
    if fs == [] then ss else ApplyField(ApplyFields(ss, fs[..|fs| - 1]), fs[|fs| - 1])
  }

  /** The reply fields of `servo_cmd_angle`: `id:pulse:1` for every servo in id order. */
  function ReplyFields(ss: seq<ServoState>): (fs: seq<Field>)
    ensures |fs| == |ss|
    ensures forall i :: 0 <= i < |ss| ==> fs[i] == Field(i, ss[i].pulse, 1)
  {
    seq(|ss|, i requires 0 <= i < |ss| => Field(i, ss[i].pulse, 1))
  }

  /** `s` is `s0` with only its pulse moved, and moved from `s0`'s pulse toward `s0`'s target. */
  predicate Progressed(s0: ServoState, s: ServoState)
  {
    s.(pulse := s0.pulse, end := s0.end) == s0 && Between(s.pulse, s0.pulse, s0.end)
  }

  /** The compare register `c` is what was there before (`c0`) if the servo never moved, else its trimmed pulse. */
  predicate Sent(s0: ServoState, c0: nat, s: ServoState, c: nat)
  {
    if s.pulse == s0.pulse then c == c0 else c == HardwarePulse(s.pulse + s.adjust)
  }

  /** A tick keeps a servo moving away from where it started and the compare register in step with it. */
  lemma TickProgress(s0: ServoState, c0: nat, s: ServoState, c: nat, t: nat)
    requires s.delay >= 1 && Progressed(s0, s) && s.end == s0.end && Sent(s0, c0, s, c)
    ensures Progressed(s0, TickServo(s, t)) && TickServo(s, t).end == s0.end
    ensures Sent(s0, c0, TickServo(s, t),
                 if TickServo(s, t).pulse == s.pulse then c else HardwarePulse(TickServo(s, t).pulse + TickServo(s, t).adjust))
  {
  }

  /** Servo by servo, `ss` has only moved from `start` toward the targets, and `c` holds what was last sent. */
  predicate Tracks(start: seq<ServoState>, c0: seq<nat>, ss: seq<ServoState>, c: seq<nat>)
  {
    |start| == |c0| == |ss| == |c| == Count
    && forall i :: 0 <= i < Count ==>
         Progressed(start[i], ss[i]) && ss[i].end == start[i].end && Sent(start[i], c0[i], ss[i], c[i])
  }

  /** A tick of the whole table keeps `Tracks`. */
  lemma TickTracks(start: seq<ServoState>, c0: seq<nat>, pre: seq<ServoState>, pc: seq<nat>, c: seq<nat>, t: nat)
    requires Tracks(start, c0, pre, pc)
    requires forall i :: 0 <= i < |pre| ==> pre[i].delay >= 1
    requires |c| == Count
    requires forall k :: 0 <= k < Count ==>
               c[k] == if Tick(pre, t)[k].pulse == pre[k].pulse then pc[k] else HardwarePulse(Tick(pre, t)[k].pulse + Tick(pre, t)[k].adjust)
    ensures Tracks(start, c0, Tick(pre, t), c)
  {
    forall i | 0 <= i < Count
      ensures Progressed(start[i], Tick(pre, t)[i]) && Tick(pre, t)[i].end == start[i].end
      ensures Sent(start[i], c0[i], Tick(pre, t)[i], c[i])
    {
      TickProgress(start[i], c0[i], pre[i], pc[i], t);
    }
  }

  /** What `servo_run` leaves: every servo at rest, having only moved from `start` toward its target, with `c` holding what was last sent. */
  predicate Ran(start: seq<ServoState>, c0: seq<nat>, ss: seq<ServoState>, c: seq<nat>)
  {
    |start| == |c0| == |ss| == |c| == Count && AtRest(ss)
    && forall i :: 0 <= i < Count ==> Progressed(start[i], ss[i]) && Sent(start[i], c0[i], ss[i], c[i])
  }

  /** Parking every servo where it is ends a run. */
  lemma FreezeRan(start: seq<ServoState>, c0: seq<nat>, ss: seq<ServoState>, c: seq<nat>)
    requires Tracks(start, c0, ss, c)
    ensures Ran(start, c0, Freeze(ss), c)
  {
  }

  /** A table at rest is unchanged by a tick, and one at rest while tracking has reached every target. */
  lemma RestRan(start: seq<ServoState>, c0: seq<nat>, ss: seq<ServoState>, c: seq<nat>, t: nat)
    requires Tracks(start, c0, ss, c) && AtRest(ss)
    requires forall i :: 0 <= i < |ss| ==> ss[i].delay >= 1
    ensures Tick(ss, t) == ss
    ensures Ran(start, c0, ss, c) && ss == Settle(start)
  {
  }

  lemma ScanAllPrefix(tokens: seq<string>, k: nat)
    requires k < |tokens|
    ensures ScanAll(tokens[..k + 1]) == ScanAll(tokens[..k]) + Scanned(tokens[k])
  {
    assert tokens[..k + 1] == tokens[..k] + [tokens[k]];
    ScanAllSnoc(tokens[..k], tokens[k]);
  }

  lemma ApplyFieldsSnoc(ss: seq<ServoState>, fs: seq<Field>, f: Field)
    requires |ss| == Count
    ensures ApplyFields(ss, fs + [f]) == ApplyField(ApplyFields(ss, fs), f)
  {
    assert (fs + [f])[..|fs|] == fs;
  }

  // ---------------------------------------------------------------- the table

  class ServoBank {
    const servos: array<ServoState>
    /** The value last written to each servo's timer compare register. */
    var compare: seq<nat>
    /** `g_movement_should_stop`, set from the serial interrupt. */
    var stopFlag: bool

    ghost predicate Valid()
      reads this
    {
      servos.Length == Count && |compare| == Count
    }

    /** Every delay is at least 1, as `servo_init` and `servo_write` keep it. */
    ghost predicate Ready()
      reads this, servos
      requires Valid()
    {
      forall i :: 0 <= i < Count ==> servos[i].delay >= 1
    }

    /** The statically allocated table before `servos_init_all`: every field zero. */
    constructor ()
      ensures Valid() && fresh(servos) && !stopFlag
      ensures forall i :: 0 <= i < Count ==> servos[i] == ServoState(0, 0, 0, 0, 0, 0, 0, 0, 0)
    {
      servos := new ServoState[Count](_ => ServoState(0, 0, 0, 0, 0, 0, 0, 0, 0));
      compare := [0, 0, 0, 0, 0, 0];
      stopFlag := false;
    }

    /** `servo_init`: an invalid id is ignored; otherwise the entry is calibrated and parked at the initial angle's pulse, which is sent to the hardware. */
    method Init(id: nat, initAngle: nat, minA: nat, maxA: nat, minP: nat, maxP: nat)
      requires Valid()
      modifies servos, this`compare
      ensures Valid()
      ensures id >= Count ==> servos[..] == old(servos[..]) && compare == old(compare)
      ensures id < Count ==>
                servos[..] == old(servos[..])[id := InitServo(initAngle, minA, maxA, minP, maxP)]
                && compare == old(compare)[id := HardwarePulse(servos[id].pulse)]
    {
      if id >= Count { return; }
      var s := ServoState(servos[id].pulse, minP, maxP, minA, maxA, servos[id].begin, servos[id].end, 1, 0);
      var p := AngleToPulse(s, initAngle);
      servos[id] := s.(pulse := p, begin := p, end := p);
      compare := compare[id := HardwarePulse(p)];
    }

    /** `servos_init_all`: every servo set up from `servo_params`, ready to run. */
    method InitAll()
      requires Valid()
      modifies servos, this`compare
      ensures Valid() && Ready() && AtRest(servos[..])
      ensures forall i :: 0 <= i < Count ==> servos[i] == InitialServo(i)
      ensures forall i :: 0 <= i < Count ==> compare[i] == HardwarePulse(servos[i].pulse)
      ensures forall i :: 0 <= i < Count ==> Calibrated(servos[i]) && 500 <= servos[i].min <= servos[i].max <= 2500
    {
      for id := 0 to Count
        invariant Valid()
        invariant forall i :: 0 <= i < id ==> servos[i] == InitialServo(i)
        invariant forall i :: 0 <= i < id ==> compare[i] == HardwarePulse(servos[i].pulse)
      {
        var (minA, maxA, initA) := Params[id];
        Init(id, initA, minA, maxA, BasePulse(minA), BasePulse(maxA));
      }
      forall i | 0 <= i < Count ensures Calibrated(servos[i]) && 500 <= servos[i].min <= servos[i].max <= 2500 {
        InitialCalibrated(i);
      }
    }

    /** `servo_write`: an invalid id is ignored; otherwise the entry gets a clamped target from its current pulse. */
    method Write(id: nat, target: nat, delay: nat)
      requires Valid()
      modifies servos
      ensures id >= Count ==> servos[..] == old(servos[..])
      ensures id < Count ==> servos[..] == old(servos[..])[id := WriteServo(old(servos[id]), target, delay)]
    {
      if id >= Count { return; }
      servos[id] := WriteServo(servos[id], target, delay);
    }

    /** `servo_write_angle`: the angle mapped by the servo's own calibration, then written. */
    method WriteAngle(id: nat, angle: nat, delay: nat)
      requires Valid()
      modifies servos
      ensures id >= Count ==> servos[..] == old(servos[..])
      ensures id < Count ==>
                servos[..] == old(servos[..])[id := WriteServo(old(servos[id]), AngleToPulse(old(servos[id]), angle), delay)]
    {
      if id >= Count { return; }
      var target := AngleToPulse(servos[id], angle);
      Write(id, target, delay);
    }

    /** `servo_read`: the current pulse, 0 for an invalid id. */
    method Read(id: nat) returns (p: nat)
      requires Valid()
      ensures id >= Count ==> p == 0
      ensures id < Count ==> p == servos[id].pulse
    {
      if id >= Count { return 0; }
      p := servos[id].pulse;
    }

    /** `servo_step`: one unit toward the target, and the trimmed pulse sent to the hardware; a servo at rest is left alone. */
    method StepServo(id: nat)
      requires Valid()
      modifies servos, this`compare
      ensures Valid()
      ensures id >= Count || old(servos[id].pulse == servos[id].end) ==>
                servos[..] == old(servos[..]) && compare == old(compare)
      ensures id < Count && old(servos[id].pulse != servos[id].end) ==>
                servos[..] == old(servos[..])[id := Step(old(servos[id]))]
                && compare == old(compare)[id := HardwarePulse(servos[id].pulse + servos[id].adjust)]
    {
      if id >= Count { return; }
      if servos[id].pulse == servos[id].end { return; }
      servos[id] := Step(servos[id]);
      compare := compare[id := HardwarePulse(servos[id].pulse + servos[id].adjust)];
    }

    /** `servo_adjust`: store the trim, send the trimmed pulse, and stop the servo where it is. */
    method Adjust(id: nat, adjust: int)
      requires Valid() && -0x8000 <= adjust < 0x8000
      modifies servos, this`compare
      ensures Valid()
      ensures id >= Count ==> servos[..] == old(servos[..]) && compare == old(compare)
      ensures id < Count ==>
                servos[..] == old(servos[..])[id := old(servos[id]).(adjust := adjust, end := old(servos[id].pulse))]
                && compare == old(compare)[id := HardwarePulse(old(servos[id].pulse) + adjust)]
    {
      if id >= Count { return; }
      var pulse := servos[id].pulse;
      compare := compare[id := HardwarePulse(servos[id].pulse + adjust)];
      servos[id] := servos[id].(adjust := adjust, end := pulse);
    }

    /** The stop branch of `servo_run`: every servo's target becomes its current pulse. */
    method FreezeAll()
      requires Valid()
      modifies servos
      ensures servos[..] == Freeze(old(servos[..]))
    {
      for id := 0 to Count
        invariant forall i :: 0 <= i < id ==> servos[i] == old(servos[i]).(end := old(servos[i]).pulse)
        invariant forall i :: id <= i < Count ==> servos[i] == old(servos[i])
      {
        servos[id] := servos[id].(end := servos[id].pulse);
      }
    }

    /** One pass of `servo_run` over the table: `running` tells whether any servo was still moving. */
    method TickAll(time: nat) returns (running: bool)
      requires Valid() && Ready()
      modifies servos, this`compare
      ensures Valid() && Ready()
      ensures running <==> !AtRest(old(servos[..]))
      ensures servos[..] == Tick(old(servos[..]), time)
      ensures forall k :: 0 <= k < Count ==>
                compare[k] == if servos[k].pulse == old(servos[k].pulse) then old(compare[k])
                              else HardwarePulse(servos[k].pulse + servos[k].adjust)
    {
      ghost var pre := servos[..];
      running := false;
      for id := 0 to Count
        invariant Valid()
        invariant running <==> exists k :: 0 <= k < id && pre[k].pulse != pre[k].end
        invariant forall k :: 0 <= k < id ==> servos[k] == TickServo(pre[k], time)
        invariant forall k :: id <= k < Count ==> servos[k] == pre[k]
        invariant forall k :: 0 <= k < id ==>
                    compare[k] == if servos[k].pulse == pre[k].pulse then old(compare[k])
                                  else HardwarePulse(servos[k].pulse + servos[k].adjust)
        invariant forall k :: id <= k < Count ==> compare[k] == old(compare[k])
      {
        var moving := TickOne(id, time);
        running := running || moving;
      }
    }

    /** The body of `servo_run`'s pass for one servo: a moving servo steps when the tick is a multiple of its delay. */
    method TickOne(id: nat, time: nat) returns (moving: bool)
      requires Valid() && id < Count && servos[id].delay >= 1
      modifies servos, this`compare
      ensures Valid()
      ensures moving <==> old(servos[id].pulse != servos[id].end)
      ensures servos[..] == old(servos[..])[id := TickServo(old(servos[id]), time)]
      ensures compare == if servos[id].pulse == old(servos[id].pulse) then old(compare)
                         else old(compare)[id := HardwarePulse(servos[id].pulse + servos[id].adjust)]
    {
      moving := servos[id].pulse != servos[id].end;
      if moving && time % servos[id].delay == 0 {
        StepServo(id);
      }
    }

    /** One pass of `servo_run` inside a run from `start`: a pass that moves nothing ends the run at the targets. */
    method TrackedTick(ghost start: seq<ServoState>, ghost compare0: seq<nat>, time: nat) returns (running: bool)
      requires Valid() && Ready() && Tracks(start, compare0, servos[..], compare)
      modifies servos, this`compare
      ensures Valid() && Ready() && Tracks(start, compare0, servos[..], compare)
      ensures !running ==> Ran(start, compare0, servos[..], compare) && servos[..] == Settle(start)
      ensures running ==> TotalRemaining(servos[..], time + 1) < TotalRemaining(old(servos[..]), time)
    {
      ghost var pre := servos[..];
      ghost var preCompare := compare;
      running := TickAll(time);
      if !running {
        RestRan(start, compare0, pre, preCompare, time);
      } else {
        TickTracks(start, compare0, pre, preCompare, compare, time);
        TickDecreases(pre, time);
      }
    }

    /**
     * `servo_run`: ticks every moving servo until all are at rest. `stopAt` stands for the serial
     * interrupt: `Some(k)` means `g_movement_should_stop` is found set at the check of tick `k`,
     * which parks every servo where it is. The flag itself is cleared on entry, as the source
     * does, so a request raised before the run does not reach it; the oracle alone decides
     * when the run sees one. Returns the number of ticks taken.
     */
    method Run(stopAt: Option<nat>) returns (time: nat)
      requires Valid() && Ready()
      modifies servos, this
      ensures Valid() && Ready() && !stopFlag
      ensures Ran(old(servos[..]), old(compare), servos[..], compare)
      ensures time <= TotalRemaining(old(servos[..]), 0)
      ensures stopAt.Some? && stopAt.value <= time ==> time == stopAt.value
      ensures stopAt.None? || stopAt.value > time ==> servos[..] == Settle(old(servos[..]))
    {
      time := 0;
      stopFlag := false;
      ghost var start := servos[..];
      ghost var compare0 := compare;
      while true
        invariant Valid() && Ready() && !stopFlag
        invariant stopAt.Some? ==> time <= stopAt.value
        invariant time + TotalRemaining(servos[..], time) <= TotalRemaining(start, 0)
        invariant Tracks(start, compare0, servos[..], compare)
        decreases TotalRemaining(servos[..], time)
      {
        if stopAt == Some(time) {
          FreezeRan(start, compare0, servos[..], compare);
          FreezeAll();
          break;
        }
        var running := TrackedTick(start, compare0, time);
        if !running {
          break;
        }
        time := time + 1;
      }
    }

    /** The status line of `servo_cmd_angle`: `id:pulse:1` for every servo, comma-separated, then `OK`. */
    method Report() returns (reply: string)
      requires Valid()
      ensures reply == FormatCommand(ReplyFields(servos[..])) + "\nOK\n"
    {
      ghost var fs := ReplyFields(servos[..]);
      var line := "";
      for id := 0 to Count
        invariant id > 0 ==> line == FormatCommand(fs[..id])
        invariant id == 0 ==> line == ""
      {
        var p := Read(id);
        var part := FormatField(Field(id, p, 1));
        if id > 0 {
          FormatCommandSnoc(fs, id);
          line := line + [','] + part;
        } else {
          assert FormatAll(fs[..1]) == [part];
          line := part;
        }
      }
      assert fs[..Count] == fs;
      reply := line + "\nOK\n";
    }

    /** One scanned field of `servo_cmd_angle`, written through `servo_write_angle`. */
    method WriteField(f: Field)
      requires Valid() && Ready()
      modifies servos
      ensures Ready()
      ensures servos[..] == ApplyField(old(servos[..]), f)
    {
      WriteAngle(U8Of(f.id), U16Of(f.angle), U16Of(f.speed));
    }

    /** The `strtok`/`sscanf` loop of `servo_cmd_angle`: each field that scans is written with its id, angle and delay cast to the parameter widths. */
    method WriteFields(tokens: seq<string>)
      requires Valid() && Ready()
      modifies servos
      ensures Ready()
      ensures servos[..] == ApplyFields(old(servos[..]), ScanAll(tokens))
    {
      ghost var ss0 := servos[..];
      for k := 0 to |tokens|
        invariant Ready()
        invariant servos[..] == ApplyFields(ss0, ScanAll(tokens[..k]))
      {
        ghost var done := ScanAll(tokens[..k]);
        ScanAllPrefix(tokens, k);
        var field := ScanField(tokens[k]);
        if field.Some? {
          ApplyFieldsSnoc(ss0, done, field.value);
          WriteField(field.value);
          assert ScanAll(tokens[..k + 1]) == done + [field.value];
        } else {
          assert ScanAll(tokens[..k + 1]) == done;
        }
      }
      assert tokens[..|tokens|] == tokens;
    }

    /**
     * `servo_cmd_angle`: every `id:angle:delay` field of a non-empty argument is written, in order,
     * then the servos run; the reply reports every pulse.
     */
    method CmdAngle(arg: string, stopAt: Option<nat>) returns (reply: string)
      requires Valid() && Ready()
      modifies servos, this
      ensures Valid() && Ready() && (if arg == [] then stopFlag == old(stopFlag) else !stopFlag)
      ensures arg == [] ==> servos[..] == old(servos[..]) && compare == old(compare)
      ensures arg != [] ==> AtRest(servos[..])
      ensures arg != [] ==> forall i :: 0 <= i < Count ==>
                Progressed(ApplyFields(old(servos[..]), ParseCommand(arg))[i], servos[i])
      ensures arg != [] && stopAt.None? ==> servos[..] == Settle(ApplyFields(old(servos[..]), ParseCommand(arg)))
      ensures reply == FormatCommand(ReplyFields(servos[..])) + "\nOK\n"
    {
      if arg != [] {
        WriteFields(Tokens(arg, ','));
        var _ := Run(stopAt);
      }
      reply := Report();
    }
  }
}
