/** The pairing script `testconnection.py`: its four command builders (which
    do NOT all follow the `[cmd][len][payload]` framing) and the passkey
    extraction its notification handler performs. */
module TestConnection {
  import opened Wrappers
  import opened Bytes
  import Protocol
  import CaptureParser

  const SET_PASSKEY_CMD_CODE: byte := 0x03
  const GET_STATS_CMD_CODE: byte := 0x05
  const REAUTHENTICATION_CMD_CODE: byte := 0x08
  const GET_LIFTER_STATE_CMD_CODE: byte := 0x0a
  const GET_SMART_POINT_INFO_CMD_CODE: byte := 0x40
  const MOVE_CMD_CODE: byte := 0x23
  const MOVE_CODE_STOP_ERROR: byte := 0x06

  /** `bytes([0x03]) + passkey_bytes`: no length byte. */
  function BuildSetPasskeyCommand(passkey: seq<byte>): (r: seq<byte>)
    ensures |r| == 1 + |passkey| && r[0] == SET_PASSKEY_CMD_CODE && r[1..] == passkey
  {
    [SET_PASSKEY_CMD_CODE] + passkey
  }

  /** `bytes([command_code, 0x00])`; `bytes` refuses a value outside 0..255. */
  function BuildSimpleCommand(commandCode: int): (r: seq<byte>)
    requires IsByte(commandCode)
    ensures |r| == 2 && r[0] == commandCode && r[1] == 0
  {
    [commandCode as byte, 0x00]
  }

  /** `[0x08, 0x02, payload_byte]`. */
  function BuildReauthenticationCommand(payloadByte: int): (r: seq<byte>)
    requires IsByte(payloadByte)
    ensures |r| == 3 && r[..2] == [REAUTHENTICATION_CMD_CODE, 2] && r[2] == payloadByte
  {
    [REAUTHENTICATION_CMD_CODE, 0x02, payloadByte as byte]
  }

  /** `[0x23, 0x06, 0x00]`. */
  function BuildPollCommand(): (r: seq<byte>)
    ensures |r| == 3 && r[0] == MOVE_CMD_CODE && r[1] == MOVE_CODE_STOP_ERROR && r[2] == 0
  {
    [MOVE_CMD_CODE, MOVE_CODE_STOP_ERROR, 0x00]
  }

  /** The "simple 0x00 payload" is a zero length byte: the simple command is
      exactly the frame `build_packet` makes with an empty payload. */
  lemma SimpleCommandIsEmptyFrame(commandCode: int)
    requires IsByte(commandCode)
    ensures BuildSimpleCommand(commandCode) == Protocol.BuildPacket(commandCode, [])
  {
  }

  /** Without its length byte the set-passkey command is one byte shorter than
      the client's SET_PASSKEY frame, and a frame decoder reads the key's
      first byte as the declared length. */
  lemma {:induction false} SetPasskeyCommandLacksLength(passkey: seq<byte>)
    requires 0 < |passkey| < 256
    ensures |BuildSetPasskeyCommand(passkey)| + 1 == |Protocol.BuildPacket(Protocol.SET_PASSKEY, passkey)|
    ensures CaptureParser.Decode(BuildSetPasskeyCommand(passkey)).length == passkey[0]
    ensures CaptureParser.Decode(BuildSetPasskeyCommand(passkey)).body
         == CaptureParser.Other(passkey[1..])
  {
    var r := BuildSetPasskeyCommand(passkey);
    assert r[1] == passkey[0];
    assert r[2..] == passkey[1..];
  }

  /** The re-authentication command declares two payload bytes but carries one. */
  lemma ReauthenticationDeclaresTwoCarriesOne(payloadByte: int)
    requires IsByte(payloadByte)
    ensures CaptureParser.Decode(BuildReauthenticationCommand(payloadByte))
         == CaptureParser.Info(REAUTHENTICATION_CMD_CODE, 2, CaptureParser.Other([payloadByte as byte]))
  {
    assert BuildReauthenticationCommand(payloadByte)[2..] == [payloadByte as byte];
  }

  /** The poll command is a MOVE frame whose length slot holds the STOP_ERROR
      code: it declares six payload bytes, carries one, and is reported raw. */
  lemma PollCommandDecodesRaw()
    ensures CaptureParser.Decode(BuildPollCommand())
         == CaptureParser.Info(Protocol.MOVE, MOVE_CODE_STOP_ERROR, CaptureParser.MoveRaw([0]))
    ensures Protocol.ParseMoveResponse(BuildPollCommand()[2..]).Err?
  {
    assert BuildPollCommand()[2..] == [0];
  }

  /** The passkey branch of the notification handler: a frame with command
      0x03 and more than four bytes yields `data[3:5]`; with three or four
      bytes it yields `data[1:3]`; anything else yields nothing. */
  function ExtractPasskey(data: seq<byte>): (r: Option<seq<byte>>)
    ensures r.Some? <==> |data| > 2 && data[0] == SET_PASSKEY_CMD_CODE
    ensures r.Some? ==> |r.value| == 2
    ensures r.Some? && |data| > 4 ==> r.value == [data[3], data[4]]
    ensures r.Some? && |data| <= 4 ==> r.value == [data[1], data[2]]
  {
    if |data| == 0 then None
    else if data[0] == SET_PASSKEY_CMD_CODE && |data| > 4 then Some(data[3..5])
    else if data[0] == SET_PASSKEY_CMD_CODE && |data| > 2 then Some(data[1..3])
    else None
  }

  /** The state the handler closes over: `received_passkey[0]` and the
      `passkey_received_event` flag. */
  class PairingListener {
    var receivedPasskey: Option<seq<byte>>
    var passkeyReceived: bool

    constructor ()
      ensures receivedPasskey == None && !passkeyReceived
    {
      receivedPasskey := None;
      passkeyReceived := false;
    }

    /** `notification_handler`: an empty frame and every frame that is not a
        passkey push leave the state alone; a push stores its two-byte key
        and sets the event. */
    method NotificationHandler(data: seq<byte>)
      modifies this
      ensures ExtractPasskey(data).Some? ==>
        receivedPasskey == ExtractPasskey(data) && passkeyReceived
      ensures ExtractPasskey(data).None? ==>
        receivedPasskey == old(receivedPasskey) && passkeyReceived == old(passkeyReceived)
    {
      if |data| == 0 {
        return;
      }
      var cmdCode := data[0];
      if cmdCode == SET_PASSKEY_CMD_CODE && |data| > 4 {
        receivedPasskey := Some(data[3..5]);
        passkeyReceived := true;
      } else if cmdCode == SET_PASSKEY_CMD_CODE && |data| > 2 {
        receivedPasskey := Some(data[1..3]);
        passkeyReceived := true;
      }
    }
  }
}
