/** `PyLifterClient` of `pylifter/client.py`: the per-winch link. The transport
    (a BLE client) is reduced to whether one exists (`hasTransport`) and a log
    `sent` of every frame written to the command characteristic; the polling
    task is reduced to whether one exists. */
module Client {
  import opened Wrappers
  import opened Bytes
  import opened Protocol
  import Harness

  /** The auth-ACK test of `_notification_handler`: `01 ?? 03 ...`. */
  predicate IsAuthAck(data: seq<byte>) {
    |data| >= 3 && data[0] == ACK && data[2] == SET_PASSKEY
  }

  /** The client and the harness recognise the same frames as the auth ACK. */
  lemma AuthAckAgreesWithHarness(data: seq<byte>)
    ensures IsAuthAck(data) <==> (Harness.Dispatch(data).AckReceived? && Harness.Dispatch(data).confirmsAuth)
  {
  }

  /** The frame `stop()` writes at once: STOP with the builder's default
      speed 100 (not the target speed 0) and position 0. */
  lemma StopFrameUsesDefaultSpeed()
    ensures BuildMovePacket(STOP, DEFAULT_SPEED, 0) == [0x23, 0x06, 0x00, 0x64, 0x00, 0x00, 0x00, 0x00]
    ensures Hex(BuildMovePacket(STOP, DEFAULT_SPEED, 0)) == "2306" + "0064" + "00000000"
  {
    var head: seq<byte> := [0x23, 0x06, 0x00, 0x64];
    assert BuildMovePacket(STOP, DEFAULT_SPEED, 0) == head + [0, 0, 0, 0];
    HexOfZeroPosition(head);
    HexAppend([0x23, 0x06], [0x00, 0x64]);
    assert head == [0x23, 0x06] + [0x00, 0x64];
  }

  /** How one pass of `_keep_alive_loop` ends. */
  datatype LoopStep =
    | Exited        // `_is_connected` was false: the while loop ends
    | Sent          // the frame was written
    | WriteFailed   // the write raised; logged, the loop goes on
    | Crashed       // building the frame raised; the outer handler logs it and the loop ends

  /** `get_stats`: the write raises without a transport; otherwise the
      future is never completed, because the handler no longer parses
      GET_STATS, so the 3-second wait always times out. */
  datatype StatsOutcome = NoTransport | TimedOut

  class PyLifterClient {
    const macAddress: string
    /** `_passkey`: the configured key's bytes, or None. */
    const passkey: Option<seq<byte>>
    var hasTransport: bool
    var authEvent: bool
    var pollingTask: bool
    /** How many keep-alive tasks `_authenticate` has created so far. */
    var tasksStarted: nat
    var targetMoveCode: int
    var targetSpeed: int
    var isConnected: bool
    var lastKnownPosition: int
    var sent: seq<seq<byte>>

    /** The object invariant. Nothing in the class assigns
        `lastKnownPosition` after construction, so it stays 0; and the
        connected flag is only ever raised with a transport present. */
    ghost predicate Valid()
      reads this
    {
      lastKnownPosition == 0 && (isConnected ==> hasTransport)
    }

    /** `if self._passkey:` — a key that is present and non-empty. */
    predicate HasPasskey()
    {
      passkey.Some? && passkey.value != []
    }

    /** `__init__`: target STOP at speed 0, not connected, no task, position 0. */
    constructor (macAddress: string, passkey: Option<seq<byte>>)
      ensures Valid()
      ensures this.macAddress == macAddress && this.passkey == passkey
      ensures targetMoveCode == STOP && targetSpeed == 0
      ensures !isConnected && !pollingTask && !hasTransport && !authEvent
      ensures lastKnownPosition == 0 && sent == [] && tasksStarted == 0
    {
      this.macAddress := macAddress;
      this.passkey := passkey;
      hasTransport := false;
      authEvent := false;
      pollingTask := false;
      tasksStarted := 0;
      targetMoveCode := STOP;
      targetSpeed := 0;
      isConnected := false;
      lastKnownPosition := 0;
      sent := [];
    }

    /** `connect`, for a transport that connects: raise the connected flag,
        then authenticate. */
    method Connect() returns (raised: bool)
      requires Valid()
      modifies this
      ensures Valid()
      ensures hasTransport && isConnected && !authEvent
      ensures raised <==> HasPasskey() && |passkey.value| >= 256
      ensures HasPasskey() && !raised ==>
        sent == old(sent) + [BuildPacket(SET_PASSKEY, passkey.value)] && pollingTask
      ensures raised ==> sent == old(sent) && pollingTask == old(pollingTask)
      ensures !HasPasskey() ==> sent == old(sent) && pollingTask == old(pollingTask)
      ensures targetMoveCode == old(targetMoveCode) && targetSpeed == old(targetSpeed)
      ensures tasksStarted == old(tasksStarted) + (if HasPasskey() && !raised && !old(pollingTask) then 1 else 0)
    {
      hasTransport := true;
      isConnected := true;
      raised := Authenticate();
    }

    /** `_authenticate`: clear the auth event; with a key, write
        `[0x03, len, key]` and then start the keep-alive task unless one
        exists; without a key, write nothing. */
    method Authenticate() returns (raised: bool)
      requires Valid()
      modifies this`authEvent, this`sent, this`pollingTask, this`tasksStarted
      ensures Valid()
      ensures !authEvent
      ensures raised <==> HasPasskey() && (|passkey.value| >= 256 || !hasTransport)
      ensures HasPasskey() && !raised ==>
        sent == old(sent) + [BuildPacket(SET_PASSKEY, passkey.value)] && pollingTask
      ensures !HasPasskey() || raised ==> sent == old(sent) && pollingTask == old(pollingTask)
      ensures tasksStarted == old(tasksStarted) + (if HasPasskey() && !raised && !old(pollingTask) then 1 else 0)
    {
      authEvent := false;
      raised := false;
      if HasPasskey() {
        var key := passkey.value;
        if |key| >= 256 {
          // struct.pack("B", len(payload)) raises
          raised := true;
          return;
        }
        var packet := BuildPacket(SET_PASSKEY, key);
        if !hasTransport {
          // None.write_gatt_char raises
          raised := true;
          return;
        }
        sent := sent + [packet];
        if !pollingTask {
          pollingTask := true;
          tasksStarted := tasksStarted + 1;
        }
      }
    }

    /** `disconnect`: lower the flag, drop the task and the transport.
        Calling it on a client already torn down changes nothing. */
    method Disconnect()
      requires Valid()
      modifies this`isConnected, this`pollingTask, this`hasTransport
      ensures Valid()
      ensures !isConnected && !pollingTask && !hasTransport
      ensures old(!isConnected && !pollingTask && !hasTransport) ==> unchanged(this)
      ensures tasksStarted == old(tasksStarted)
    {
      isConnected := false;
      if pollingTask {
        pollingTask := false;
      }
      if hasTransport {
        hasTransport := false;
      }
    }

    /** One pass of `_keep_alive_loop`: while connected, build the MOVE frame
        from the target state and the last known position, and write it. */
    method KeepAliveIteration(writeSucceeds: bool) returns (step: LoopStep)
      requires Valid()
      modifies this`sent
      ensures Valid()
      ensures step == Exited <==> !isConnected
      ensures step == Crashed <==> isConnected && TryBuildMovePacket(targetMoveCode, targetSpeed, lastKnownPosition).None?
      ensures step == Sent <==> isConnected && writeSucceeds && TryBuildMovePacket(targetMoveCode, targetSpeed, lastKnownPosition).Some?
      ensures step == Sent ==> sent == old(sent) + [BuildMovePacket(targetMoveCode, targetSpeed, 0)]
      ensures step != Sent ==> sent == old(sent)
      ensures step == Sent ==> Signed32(sent[|sent| - 1][4..8]) == 0
      ensures tasksStarted == old(tasksStarted)
    {
      if !isConnected {
        return Exited;
      }
      var packet := TryBuildMovePacket(targetMoveCode, targetSpeed, lastKnownPosition);
      if packet.None? {
        return Crashed;
      }
      if writeSucceeds {
        sent := sent + [packet.value];
        MovePositionRoundTrip(targetMoveCode, targetSpeed, 0);
        step := Sent;
      } else {
        step := WriteFailed;
      }
    }

    /** `move`: set the target, then write `build_move_packet(direction,
        speed)` (position 0) if a transport exists and the flag is up.
        Packing raises for a code or speed outside 0..255, after the target
        has already been changed, and then nothing is written. */
    method Move(direction: int, speed: int := 100) returns (raised: bool)
      requires Valid()
      modifies this`targetMoveCode, this`targetSpeed, this`sent
      ensures Valid()
      ensures targetMoveCode == direction && targetSpeed == speed
      ensures raised <==> !(IsByte(direction) && IsByte(speed))
      ensures !raised && hasTransport && isConnected ==>
        sent == old(sent) + [BuildMovePacket(direction, speed, 0)]
      ensures raised || !(hasTransport && isConnected) ==> sent == old(sent)
      ensures tasksStarted == old(tasksStarted)
    {
      targetMoveCode := direction;
      targetSpeed := speed;
      var packet := TryBuildMovePacket(direction, speed, 0);
      if packet.None? {
        return true;
      }
      raised := false;
      if hasTransport && isConnected {
        sent := sent + [packet.value];
      }
    }

    /** `stop`: target STOP at speed 0; the immediate frame is
        `build_move_packet(STOP)`, i.e. speed 100 and position 0. */
    method Stop()
      requires Valid()
      modifies this`targetMoveCode, this`targetSpeed, this`sent
      ensures Valid()
      ensures targetMoveCode == STOP && targetSpeed == 0
      ensures hasTransport && isConnected ==> sent == old(sent) + [BuildMovePacket(STOP, DEFAULT_SPEED, 0)]
      ensures !(hasTransport && isConnected) ==> sent == old(sent)
      ensures tasksStarted == old(tasksStarted)
    {
      targetMoveCode := STOP;
      targetSpeed := 0;
      var packet := BuildMovePacket(STOP, DEFAULT_SPEED, 0);
      if hasTransport && isConnected {
        sent := sent + [packet];
      }
    }

    /** `get_stats`: writes `[0x34, 0x00]` and then always times out. */
    method GetStats() returns (outcome: StatsOutcome)
      requires Valid()
      modifies this`sent
      ensures Valid()
      ensures outcome == (if hasTransport then TimedOut else NoTransport)
      ensures sent == old(sent) + (if hasTransport then [[GET_STATS, 0x00]] else [])
      ensures tasksStarted == old(tasksStarted)
    {
      var packet := BuildPacket(GET_STATS, []);
      assert packet == [GET_STATS, 0x00];
      if !hasTransport {
        return NoTransport;
      }
      sent := sent + [packet];
      outcome := TimedOut;
    }

    /** `_notification_handler`: sets the auth event on an auth ACK and does
        nothing else (its former parser is commented out). */
    method NotificationHandler(data: seq<byte>)
      requires Valid()
      modifies this`authEvent
      ensures Valid()
      ensures authEvent == (old(authEvent) || IsAuthAck(data))
      ensures tasksStarted == old(tasksStarted)
    {
      if |data| >= 3 && data[0] == ACK && data[2] == SET_PASSKEY {
        authEvent := true;
      }
    }

    /** `factory_calibrate`: `[0xFA, 1, code]`, written whether or not the
        link is flagged connected; raises without a transport or for a code
        outside 0..255. */
    method FactoryCalibrate(code: int := 1) returns (raised: bool)
      requires Valid()
      modifies this`sent
      ensures Valid()
      ensures raised <==> !IsByte(code) || !hasTransport
      ensures !raised ==> sent == old(sent) + [[FACTORY_CALIBRATE, 1, code as byte]]
      ensures raised ==> sent == old(sent)
      ensures tasksStarted == old(tasksStarted)
    {
      if !IsByte(code) {
        return true;
      }
      var packet := BuildPacket(FACTORY_CALIBRATE, [code as byte]);
      assert packet == [FACTORY_CALIBRATE, 1, code as byte];
      if !hasTransport {
        return true;
      }
      sent := sent + [packet];
      raised := false;
    }

    /** `clear_calibration`: the clear-smart-point frame `[0x33, 1, code]`,
        with the same error cases as `factory_calibrate`. */
    method ClearCalibration(code: int := 1) returns (raised: bool)
      requires Valid()
      modifies this`sent
      ensures Valid()
      ensures raised <==> !IsByte(code) || !hasTransport
      ensures !raised ==> sent == old(sent) + [BuildClearSmartPointPacket(code)]
      ensures raised ==> sent == old(sent)
      ensures tasksStarted == old(tasksStarted)
    {
      if !IsByte(code) {
        return true;
      }
      var packet := BuildPacket(CLEAR_CALIBRATION, [code as byte]);
      if !hasTransport {
        return true;
      }
      sent := sent + [packet];
      raised := false;
    }

    /** `_send_set_passkey`: the SET_PASSKEY frame for an explicit key,
        raising for a key of 256 bytes or more or without a transport. */
    method SendSetPasskey(key: seq<byte>) returns (raised: bool)
      requires Valid()
      modifies this`sent
      ensures Valid()
      ensures raised <==> |key| >= 256 || !hasTransport
      ensures !raised ==> sent == old(sent) + [BuildPacket(SET_PASSKEY, key)]
      ensures raised ==> sent == old(sent)
      ensures tasksStarted == old(tasksStarted)
    {
      if |key| >= 256 {
        return true;
      }
      var packet := BuildPacket(SET_PASSKEY, key);
      if !hasTransport {
        return true;
      }
      sent := sent + [packet];
      raised := false;
    }
  }

  /** A trace: after connecting with a key and moving UP at 50, every
      keep-alive frame is `[0x23, 6, UP, 50, 0, 0, 0, 0]`, and a repeated
      authentication starts no second task. */
  method KeepAliveAfterMove(key: seq<byte>) returns (frame: seq<byte>, tasks: nat)
    requires 0 < |key| < 256
    ensures frame == [0x23, 0x06, UP, 50, 0, 0, 0, 0]
    ensures tasks == 1
  {
    var c := new PyLifterClient("CC:CC:CC:FE:15:33", Some(key));
    var _ := c.Connect();
    assert c.pollingTask && c.sent == [BuildPacket(SET_PASSKEY, key)];
    var _ := c.Authenticate();
    assert c.pollingTask && |c.sent| == 2 && c.tasksStarted == 1;
    var _ := c.Move(UP, 50);
    var step := c.KeepAliveIteration(true);
    assert step == Sent;
    frame := c.sent[|c.sent| - 1];
    tasks := c.tasksStarted;
    assert BuildMovePacket(UP, 50, 0) == [0x23, 0x06, UP, 50, 0, 0, 0, 0];
  }

  /** Two `_authenticate` calls in a row, from any state: at most one
      keep-alive task is created, and after a successful first call the
      second creates none. */
  method AuthenticateTwice(c: PyLifterClient) returns (first: bool, second: bool)
    requires c.Valid()
    modifies c
    ensures c.Valid()
    ensures c.tasksStarted <= old(c.tasksStarted) + 1
    ensures c.HasPasskey() && !first ==> c.tasksStarted == old(c.tasksStarted) + (if old(c.pollingTask) then 0 else 1)
  {
    first := c.Authenticate();
    ghost var mid := c.tasksStarted;
    second := c.Authenticate();
    assert c.HasPasskey() && !first ==> c.pollingTask && c.tasksStarted == mid;
  }
}
