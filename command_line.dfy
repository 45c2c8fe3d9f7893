/**
 * The firmware's serial front end (`main.c`): the receive interrupt assembles characters
 * into lines in a bounded buffer and handles `stop` at once; the main loop hands every other
 * line to `process_command`, which dispatches `beep`, `run N` or a manual servo command.
 */
module CommandLine {
  import opened Outcomes
  import opened Text
  import opened Protocol
  import opened Servo
  import opened Sequencer

  /** `RX_BUFFER_SIZE`. */
  const RxSize: nat := 128

  function Min(a: nat, b: nat): nat { if a <= b then a else b }

  /** A C string stored in `s`: everything before the first NUL, or all of `s` when there is none. */
  function UpToNul(s: string): (t: string)
    ensures |t| <= |s| && t == s[..|t|] && '\0' !in t
    ensures |t| < |s| ==> s[|t|] == '\0'
  {
    if s == [] || s[0] == '\0' then [] else [s[0]] + UpToNul(s[1..])
  }

  /** A string followed by its terminator reads back as itself, whatever follows. */
  lemma {:induction false} UpToNulTerminated(t: string, rest: string)
    requires '\0' !in t
    ensures UpToNul(t + ['\0'] + rest) == t
    decreases |t|
  {
    if t != [] {
      assert (t + ['\0'] + rest)[1..] == t[1..] + ['\0'] + rest;
      UpToNulTerminated(t[1..], rest);
    }
  }

  /** Writing a terminator after `p` does not change the C string read from it. */
  lemma {:induction false} UpToNulAppendNul(p: string)
    ensures UpToNul(p + ['\0']) == UpToNul(p)
    decreases |p|
  {
    if p != [] && p[0] != '\0' {
      assert (p + ['\0'])[1..] == p[1..] + ['\0'];
      UpToNulAppendNul(p[1..]);
    }
  }

  predicate IsTerminator(c: char) { c == '\n' || c == '\r' }

  // ---------------------------------------------------------------- the receive interrupt

  class Receiver {
    /** `rx_buffer` and `rx_buffer_index`: the line being received. */
    const rxBuffer: array<char>
    var rxIndex: nat
    /** `line_buffer`: the last completed line, handed to the main loop. */
    const lineBuffer: array<char>
    /** `g_new_command_received`. */
    var newCommand: bool

    ghost predicate Valid()
      reads this
    {
      rxBuffer.Length == RxSize && lineBuffer.Length == RxSize && rxIndex < RxSize && rxBuffer != lineBuffer
    }

    /** The characters received since the last line ended. */
    function Pending(): string
      reads this, rxBuffer
      requires Valid()
    {
      rxBuffer[..rxIndex]
    }

    /** The string `line_buffer` holds. */
    function Line(): string
      reads this, lineBuffer
      requires Valid()
    {
      UpToNul(lineBuffer[..])
    }

    /** The zero-initialised globals. */
    constructor ()
      ensures Valid() && fresh(rxBuffer) && fresh(lineBuffer)
      ensures Pending() == [] && Line() == [] && !newCommand
    {
      rxBuffer := new char[RxSize](_ => '\0');
      lineBuffer := new char[RxSize](_ => '\0');
      rxIndex := 0;
      newCommand := false;
    }

    /** `clear_rx_buffer`. */
    method ClearRx()
      requires Valid()
      modifies this`rxIndex
      ensures Valid() && Pending() == []
    {
      rxIndex := 0;
    }

    /** The `strcpy` of a completed line into `line_buffer`. */
    method CopyLine(text: string)
      requires Valid() && |text| < RxSize && '\0' !in text
      modifies lineBuffer
      ensures Line() == text
    {
      for i := 0 to |text|
        invariant lineBuffer[..i] == text[..i]
      {
        lineBuffer[i] := text[i];
      }
      lineBuffer[|text|] := '\0';
      assert lineBuffer[..] == text + ['\0'] + lineBuffer[|text| + 1..];
      UpToNulTerminated(text, lineBuffer[|text| + 1..]);
    }

    /**
     * `USART1_IRQHandler` for one received character. A terminator ends a non-empty line:
     * `stop` raises the servo stop flag, any other line is handed to the main loop. A
     * terminator on an empty line does nothing; other characters are kept while there is room
     * for the NUL and dropped after that.
     */
    method ReceiveChar(c: char, bank: ServoBank)
      requires Valid()
      modifies this, rxBuffer, lineBuffer, bank`stopFlag
      ensures Valid()
      ensures !IsTerminator(c) ==>
                newCommand == old(newCommand) && Line() == old(Line()) && bank.stopFlag == old(bank.stopFlag)
                && Pending() == if old(rxIndex) < RxSize - 1 then old(Pending()) + [c] else old(Pending())
      ensures IsTerminator(c) && old(rxIndex) == 0 ==>
                Pending() == [] && newCommand == old(newCommand) && Line() == old(Line())
                && bank.stopFlag == old(bank.stopFlag)
      ensures IsTerminator(c) && old(rxIndex) > 0 && UpToNul(old(Pending())) == "stop" ==>
                Pending() == [] && bank.stopFlag && newCommand == old(newCommand) && Line() == old(Line())
      ensures IsTerminator(c) && old(rxIndex) > 0 && UpToNul(old(Pending())) != "stop" ==>
                Pending() == [] && newCommand && Line() == UpToNul(old(Pending()))
                && bank.stopFlag == old(bank.stopFlag)
    {
      if IsTerminator(c) {
        if rxIndex > 0 {
          ghost var pending := rxBuffer[..rxIndex];
          rxBuffer[rxIndex] := '\0';
          assert rxBuffer[..rxIndex + 1] == pending + ['\0'];
          UpToNulAppendNul(pending);
          var text := UpToNul(rxBuffer[..rxIndex + 1]);
          if text == "stop" {
            bank.stopFlag := true;
            ClearRx();
          } else {
            CopyLine(text);
            newCommand := true;
            rxIndex := 0;
          }
        }
      } else if rxIndex < RxSize - 1 {
        rxBuffer[rxIndex] := c;
        rxIndex := rxIndex + 1;
      }
    }

    /**
     * A whole frame `text` + CR + LF arriving on an idle receiver: the first `RxSize - 1`
     * characters of `text` become one line, and the LF after the CR adds nothing.
     */
    method ReceiveFrame(text: string, bank: ServoBank)
      requires Valid() && rxIndex == 0
      requires text != [] && forall k :: 0 <= k < |text| ==> !IsTerminator(text[k]) && text[k] != '\0'
      modifies this, rxBuffer, lineBuffer, bank`stopFlag
      ensures Valid() && Pending() == []
      ensures text[..Min(|text|, RxSize - 1)] == "stop" ==>
                bank.stopFlag && newCommand == old(newCommand) && Line() == old(Line())
      ensures text[..Min(|text|, RxSize - 1)] != "stop" ==>
                newCommand && Line() == text[..Min(|text|, RxSize - 1)] && bank.stopFlag == old(bank.stopFlag)
    {
      ghost var line0 := Line();
      for k := 0 to |text|
        invariant Valid() && Pending() == text[..Min(k, RxSize - 1)]
        invariant newCommand == old(newCommand) && Line() == line0 && bank.stopFlag == old(bank.stopFlag)
      {
        ReceiveChar(text[k], bank);
      }
      var kept := text[..Min(|text|, RxSize - 1)];
      assert '\0' !in kept;
      assert UpToNul(kept) == kept;
      ReceiveChar('\r', bank);
      ReceiveChar('\n', bank);
    }
  }

  // ---------------------------------------------------------------- process_command

  /** What `process_command` decides to do with a line. */
  datatype Action =
    | Ignore                   // the empty string
    | Beep                     // exactly `beep`
    | RunTask(task: nat)       // `run N` with N a valid task
    | InvalidTask(id: int)     // `run N` with N outside [0, TASK_COUNT)
    | NoTaskId                 // `run ` not followed by a number
    | Manual                   // anything else: a servo command

  /** The dispatch of `process_command`, tested in the source's order. */
  function Dispatch(cmd: string): (a: Action)
    ensures a == Ignore <==> cmd == []
    ensures a == Beep <==> cmd == "beep"
    ensures a.RunTask? ==> a.task < TaskCount
    ensures (a.RunTask? || a.InvalidTask? || a.NoTaskId?) <==> |cmd| >= 4 && cmd[..4] == "run "
    ensures a.NoTaskId? <==> |cmd| >= 4 && cmd[..4] == "run " && ScanInt(cmd[4..]).None?
    ensures |cmd| >= 4 && cmd[..4] == "run " && ScanInt(cmd[4..]).Some? ==>
              var id := ScanInt(cmd[4..]).value.0;
              a == (if 0 <= id < TaskCount then RunTask(id) else InvalidTask(id))
    ensures a.InvalidTask? ==> !(0 <= a.id < TaskCount)
  {
    if cmd == [] then Ignore
    else if cmd == "beep" then assert cmd[0] == 'b'; Beep
    else if |cmd| >= 4 && cmd[..4] == "run " then
      match ScanInt(cmd[4..])
      case None => NoTaskId
      case Some((id, _)) => if 0 <= id < TaskCount then RunTask(id) else InvalidTask(id)
    else Manual
  }

  /** Every command line the host builds is dispatched as a manual servo command. */
  lemma DispatchHostCommand(fs: seq<Field>)
    requires fs != []
    ensures Dispatch(FormatCommand(fs)) == Manual
  {
    var cmd := FormatCommand(fs);
    FormatCommandShape(fs);
    assert cmd[0] != 'b' && cmd[0] != 'r';
    assert cmd != [] && cmd != "beep";
    assert !(|cmd| >= 4 && cmd[..4] == "run ") by {
      if |cmd| >= 4 { assert cmd[..4][0] == cmd[0]; }
    }
  }

  /** `run N` for a printed number N starts task N when it exists and is reported as invalid otherwise. */
  lemma DispatchRunId(n: int)
    ensures Dispatch("run " + IntToString(n)) == if 0 <= n < TaskCount then RunTask(n) else InvalidTask(n)
  {
    var cmd := "run " + IntToString(n);
    assert cmd[..4] == "run " && cmd[4..] == IntToString(n) + [];
    ScanIntToString(n, []);
  }

  /**
   * `process_command`: `stops` is the stop oracle of the servo runs the command starts
   * (`stops(k)` for the `k`-th run). Returns the action taken.
   */
  method ProcessCommand(bank: ServoBank, cmd: string, stops: nat -> Option<nat>) returns (act: Action)
    requires bank.Valid() && bank.Ready()
    modifies bank.servos, bank
    ensures bank.Valid() && bank.Ready()
    ensures act == Dispatch(cmd)
    ensures !act.Manual? && act != RunTask(TaskPickAndPlace1) ==>
              bank.servos[..] == old(bank.servos[..]) && bank.compare == old(bank.compare)
    ensures act.Manual? ==> AtRest(bank.servos[..])
    ensures act.Manual? && stops(0).None? ==>
              bank.servos[..] == Settle(ApplyFields(old(bank.servos[..]), ParseCommand(cmd)))
    ensures act == RunTask(TaskPickAndPlace1) && stops(|PickAndPlace| - 1).None? ==>
              forall i :: 0 <= i < Count ==> bank.servos[i].pulse == PoseTarget(old(bank.servos[i]), Home[i])
  {
    act := Dispatch(cmd);
    match act
    case Manual =>
      var _ := bank.CmdAngle(cmd, stops(0));
    case RunTask(task) =>
      if task == TaskPickAndPlace1 {
        var _ := ExecuteTask(bank, task, stops);
      } else {
        var _ := ExecuteTask(bank, task, stops);
        assert bank.compare == old(bank.compare);
      }
    case _ =>
  }

  /** One pass of the main loop: a pending line is taken, its flag cleared first, and processed. */
  method MainLoopStep(rx: Receiver, bank: ServoBank, stops: nat -> Option<nat>) returns (act: Option<Action>)
    requires rx.Valid() && bank.Valid() && bank.Ready()
    modifies rx`newCommand, bank.servos, bank
    ensures rx.Valid() && bank.Valid() && bank.Ready() && !rx.newCommand
    ensures old(rx.newCommand) <==> act.Some?
    ensures act.Some? ==> act.value == Dispatch(old(rx.Line()))
    ensures act.None? ==> bank.servos[..] == old(bank.servos[..])
    ensures act == Some(Manual) && stops(0).None? ==>
              bank.servos[..] == Settle(ApplyFields(old(bank.servos[..]), ParseCommand(old(rx.Line()))))
  {
    act := None;
    if rx.newCommand {
      rx.newCommand := false;
      var a := ProcessCommand(bank, rx.Line(), stops);
      act := Some(a);
    }
  }

  /**
   * The host-to-servo path: a command line the host builds, framed with CR LF and short
   * enough for the receive buffer, reaches `servo_cmd_angle` whole and is parsed back into
   * the host's fields, each written in order.
   */
  method DeliverCommand(rx: Receiver, bank: ServoBank, fs: seq<Field>)
    requires rx.Valid() && rx.rxIndex == 0 && bank.Valid() && bank.Ready()
    requires fs != [] && |FormatCommand(fs)| < RxSize
    modifies rx, rx.rxBuffer, rx.lineBuffer, bank, bank.servos
    ensures bank.servos[..] == Settle(ApplyFields(old(bank.servos[..]), fs))
  {
    var cmd := FormatCommand(fs);
    FormatCommandShape(fs);
    DispatchHostCommand(fs);
    ParseFormatCommand(fs);
    forall k | 0 <= k < |cmd| ensures !IsTerminator(cmd[k]) && cmd[k] != '\0' {
      assert WireChar(cmd[k]);
    }
    assert cmd[..Min(|cmd|, RxSize - 1)] == cmd;
    assert cmd != "stop" by { assert cmd[0] != 's'; }
    ghost var ss := bank.servos[..];
    rx.ReceiveFrame(cmd, bank);
    var act := MainLoopStep(rx, bank, _ => None);
  }
}
