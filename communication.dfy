/**
 * The host's side of the wire (`communication.py`): the builders of the
 * `id:angle:speed` command lines and the guarded send. Angles are Python floats,
 * modelled as reals; `round` is Python's round-half-to-even.
 */
module Communication {
  import opened Outcomes
  import opened Text
  import opened Protocol

  // ---------------------------------------------------------------- round()

  /** Python's `round(x)` for a float: the nearest integer, ties to the even one. */
  function RoundHalfEven(x: real): (n: int)
    ensures -0.5 <= x - n as real <= 0.5
    ensures x - n as real == 0.5 || x - n as real == -0.5 ==> n % 2 == 0
    ensures x == x.Floor as real ==> n == x.Floor
  {
    var f := x.Floor;
    var frac := x - f as real;
    if frac < 0.5 then f
    else if frac > 0.5 then f + 1
    else if f % 2 == 0 then f else f + 1
  }

  /** Rounding an angle that lies in a range with integer ends stays in that range. */
  lemma RoundInRange(x: real, lo: int, hi: int)
    requires lo as real <= x <= hi as real
    ensures lo <= RoundHalfEven(x) <= hi
  {
  }

  // ---------------------------------------------------------------- command builders

  /** The fields of the first `n` angles: `i:round(angle_i):speed` for i in 0..n-1. */
  function AngleFields(angles: seq<real>, n: nat, speed: int): (fs: seq<Field>)
    requires n <= |angles|
  {
    seq(n, i requires 0 <= i < n => Field(i, RoundHalfEven(angles[i]), speed))
  }

  /** The `command_parts` loop shared by the builders: one printed field per angle, then `",".join`. */
  method BuildCommand(angles: seq<real>, n: nat, speed: int) returns (cmd: string)
    requires n <= |angles|
    ensures cmd == FormatCommand(AngleFields(angles, n, speed))
    ensures n > 0 ==> ParseCommand(cmd) == AngleFields(angles, n, speed)
  {
    ghost var fs := AngleFields(angles, n, speed);
    var parts: seq<string> := [];
    for i := 0 to n
      invariant parts == FormatAll(fs[..i])
    {
      var part := FormatField(Field(i, RoundHalfEven(angles[i]), speed));
      assert fs[..i + 1] == fs[..i] + [fs[i]];
      FormatAllSnoc(fs[..i], fs[i]);
      parts := parts + [part];
    }
    assert fs[..n] == fs;
    cmd := Join(parts, ',');
    if n > 0 {
      ParseFormatCommand(fs);
    }
  }

  /** `create_servo_command`: one field per given angle, in index order. */
  method CreateServoCommand(angles: seq<real>, speed: int) returns (cmd: string)
    ensures cmd == FormatCommand(AngleFields(angles, |angles|, speed))
    ensures angles == [] ==> cmd == ""
    ensures angles != [] ==> ParseCommand(cmd) == AngleFields(angles, |angles|, speed)
  {
    cmd := BuildCommand(angles, |angles|, speed);
  }

  /**
   * `create_position_command`: fields for servos 0..4, or 0..5 unless the gripper is
   * excluded. Too few angles make `servo_angles[i]` raise, modelled as an error.
   */
  method CreatePositionCommand(angles: seq<real>, speed: int, excludeGripper: bool) returns (r: Result<string>)
    ensures r.Ok? <==> |angles| >= (if excludeGripper then 5 else 6)
    ensures r.Ok? ==> r.value == FormatCommand(AngleFields(angles, if excludeGripper then 5 else 6, speed))
    ensures r.Ok? ==> ParseCommand(r.value) == AngleFields(angles, if excludeGripper then 5 else 6, speed)
  {
    var endIndex := if excludeGripper then 5 else 6;
    if |angles| < endIndex {
      return Err("list index out of range");
    }
    var cmd := BuildCommand(angles, endIndex, speed);
    return Ok(cmd);
  }

  /** `create_gripper_command`: the single field `5:round(angle):speed`. */
  function CreateGripperCommand(angle: real, speed: int): (cmd: string)
    ensures ParseCommand(cmd) == [Field(5, RoundHalfEven(angle), speed)]
  {
    var f := Field(5, RoundHalfEven(angle), speed);
    assert FormatCommand([f]) == FormatField(f);
    ParseFormatCommand([f]);
    FormatField(f)
  }

  // ---------------------------------------------------------------- send_command

  /** Why a send reports failure. */
  datatype SendStatus = Sent | NotConnected | WriteFailed

  /**
   * `SerialCommunicator`: the connection flags and the text written to the port so far.
   * Opening and closing the port is not part of this model; a communicator is built in
   * a given connection state.
   */
  class SerialCommunicator {
    var isConnected: bool
    var portOpen: bool
    var written: seq<string>

    constructor (connected: bool, open: bool)
      ensures isConnected == connected && portOpen == open && written == []
    {
      isConnected := connected;
      portOpen := open;
      written := [];
    }

    /**
     * `send_command`: refuses without writing when not connected; otherwise writes the
     * command framed with CR LF. `fails` stands for the port's write raising.
     */
    method SendCommand(command: string, fails: bool) returns (ok: bool, status: SendStatus)
      modifies this
      ensures isConnected == old(isConnected) && portOpen == old(portOpen)
      ensures !(old(isConnected) && old(portOpen)) ==> !ok && status == NotConnected && written == old(written)
      ensures old(isConnected) && old(portOpen) && fails ==> !ok && status == WriteFailed && written == old(written)
      ensures old(isConnected) && old(portOpen) && !fails ==> ok && status == Sent && written == old(written) + [command + "\r\n"]
    {
      if !isConnected || !portOpen {
        return false, NotConnected;
      }
      if fails {
        return false, WriteFailed;
      }
      written := written + [command + "\r\n"];
      return true, Sent;
    }
  }
}
