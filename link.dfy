/**
 * The host and the firmware together: a command built by `create_position_command`,
 * written with its CR LF by `send_command`, is assembled into one line by the USART
 * handler, dispatched by `process_command` to `servo_cmd_angle`, and becomes one
 * `servo_write_angle(i, round(angle_i), speed)` per field before the motion settles.
 */
module Link {
  import opened Outcomes
  import opened Text
  import opened Protocol
  import opened Servo
  import opened CommandLine
  import Communication

  /** Host angles and a speed the firmware's `%d` fields carry unchanged into its `uint16_t` parameters. */
  predicate Sendable(angles: seq<real>, speed: int)
  {
    0 <= speed < U16
    && forall i :: 0 <= i < |angles| && i < Count ==> 0.0 <= angles[i] <= (U16 - 1) as real
  }

  /** What the fields of the first `n` host angles ask of the servo table: servo `i` written with its rounded angle. */
  function FieldWrites(ss: seq<ServoState>, angles: seq<real>, n: nat, speed: int): (r: seq<ServoState>)
    requires |ss| == Count && n <= Count && n <= |angles| && Sendable(angles, speed)
    ensures |r| == Count
  {
    seq(Count, i requires 0 <= i < Count =>
      if i < n then WriteServo(ss[i], AngleToPulse(ss[i], Communication.RoundHalfEven(angles[i])), speed) else ss[i])
  }

  /** Applying the host's fields in order writes each addressed servo once, with its own rounded angle, and no other. */
  lemma {:induction false} ApplyAngleFields(ss: seq<ServoState>, angles: seq<real>, n: nat, speed: int)
    requires |ss| == Count && n <= Count && n <= |angles| && Sendable(angles, speed)
    ensures ApplyFields(ss, Communication.AngleFields(angles, n, speed)) == FieldWrites(ss, angles, n, speed)
  {
    var fs := Communication.AngleFields(angles, n, speed);
    assert FieldWrites(ss, angles, 0, speed) == ss;
    for k := 0 to n
      invariant ApplyFields(ss, fs[..k]) == FieldWrites(ss, angles, k, speed)
    {
      var a := Communication.RoundHalfEven(angles[k]);
      Communication.RoundInRange(angles[k], 0, U16 - 1);
      assert fs[..k + 1][..k] == fs[..k] && fs[..k + 1][k] == Field(k, a, speed);
      ApplyFieldInRange(FieldWrites(ss, angles, k, speed), k, a, speed);
      FieldWritesStep(ss, angles, k, speed);
    }
    assert fs[..n] == fs;
  }

  /** The writes of one more field: the previous ones, and servo `k` written with its rounded angle. */
  lemma FieldWritesStep(ss: seq<ServoState>, angles: seq<real>, k: nat, speed: int)
    requires |ss| == Count && k < Count && k < |angles| && Sendable(angles, speed)
    ensures FieldWrites(ss, angles, k, speed)[k] == ss[k]
    ensures FieldWrites(ss, angles, k + 1, speed) ==
              FieldWrites(ss, angles, k, speed)[k := WriteServo(ss[k], AngleToPulse(ss[k], Communication.RoundHalfEven(angles[k])), speed)]
  {
  }

  /** One field whose numbers survive the `uint8_t`/`uint16_t` casts writes exactly the servo it names. */
  lemma ApplyFieldInRange(ss: seq<ServoState>, id: nat, angle: int, speed: int)
    requires |ss| == Count && id < Count && 0 <= angle < U16 && 0 <= speed < U16
    ensures ApplyField(ss, Field(id, angle, speed)) == ss[id := WriteServo(ss[id], AngleToPulse(ss[id], angle), speed)]
  {
    SmallMod(id, 256);
    SmallMod(angle, U16);
    SmallMod(speed, U16);
  }

  /** A `str.join` of pieces of at most `m` characters has at most `m` per piece plus one separator between neighbours. */
  lemma {:induction false} JoinLength(parts: seq<string>, sep: char, m: nat)
    requires parts != [] && forall k :: 0 <= k < |parts| ==> |parts[k]| <= m
    ensures |Join(parts, sep)| <= (m + 1) * |parts| - 1
    decreases |parts|
  {
    if |parts| > 1 {
      JoinLength(parts[1..], sep, m);
      assert (m + 1) * |parts| == (m + 1) * |parts[1..]| + (m + 1);
    }
  }

  /** A host command for at most six servos fits the firmware's 128-byte receive buffer with room for its NUL. */
  lemma AngleCommandLength(angles: seq<real>, n: nat, speed: int)
    requires 0 < n <= Count && n <= |angles| && Sendable(angles, speed)
    ensures |FormatCommand(Communication.AngleFields(angles, n, speed))| <= 14 * n - 1 < RxSize
  {
    var fs := Communication.AngleFields(angles, n, speed);
    forall k | 0 <= k < n ensures |FormatAll(fs)[k]| <= 13 {
      Communication.RoundInRange(angles[k], 0, U16 - 1);
      FormatFieldLength(fs[k]);
    }
    JoinLength(FormatAll(fs), ',', 13);
  }

  /**
   * `create_position_command`, `send_command`, then the firmware's receive, dispatch and
   * motion: when the send succeeds, every addressed servo settles at its rounded angle's
   * pulse and the others keep their targets; when it fails, the arm is untouched.
   */
  method DeliverPosition(comm: Communication.SerialCommunicator, rx: Receiver, bank: ServoBank,
                         angles: seq<real>, speed: int, excludeGripper: bool, fails: bool)
    returns (r: Result<string>, ok: bool)
    requires rx.Valid() && rx.rxIndex == 0 && bank.Valid() && bank.Ready() && Sendable(angles, speed)
    modifies comm, rx, rx.rxBuffer, rx.lineBuffer, bank, bank.servos
    ensures r.Ok? <==> |angles| >= (if excludeGripper then 5 else 6)
    ensures ok <==> r.Ok? && comm.isConnected && comm.portOpen && !fails
    ensures ok ==>
              comm.written == old(comm.written) + [r.value + "\r\n"]
              && bank.servos[..] ==
                   Settle(FieldWrites(old(bank.servos[..]), angles, if excludeGripper then 5 else 6, speed))
    ensures !ok ==> comm.written == old(comm.written) && bank.servos[..] == old(bank.servos[..])
  {
    var n := if excludeGripper then 5 else 6;
    r := Communication.CreatePositionCommand(angles, speed, excludeGripper);
    ok := false;
    if r.Ok? {
      var status;
      ok, status := comm.SendCommand(r.value, fails);
      if ok {
        var fs := Communication.AngleFields(angles, n, speed);
        AngleCommandLength(angles, n, speed);
        ApplyAngleFields(bank.servos[..], angles, n, speed);
        DeliverCommand(rx, bank, fs);
      }
    }
  }
}
