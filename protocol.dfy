/** The wire codec of `pylifter/protocol.py`: every frame is
    `[command][payload length][payload]`; a MOVE request carries
    `<BBi` (move code, speed, little-endian int32 average position) and a MOVE
    response `<BBih` (status, error, int32 position, int16 weight). */
module Protocol {
  import opened Wrappers
  import opened Bytes

  // CommandCode. GET_PASSKEY and SET_PASSKEY share the value 0x03.
  const NACK: byte := 0x00
  const ACK: byte := 0x01
  const GET_PASSKEY: byte := 0x03
  const SET_PASSKEY: byte := 0x03
  const GET_PROTOCOL_VERSION: byte := 0x05
  const CLEAR_ERROR: byte := 0x06
  const GET_NAME: byte := 0x08
  const SET_NAME: byte := 0x09
  const GET_VERSION: byte := 0x0A
  const MOVE: byte := 0x23
  const CALIBRATE: byte := 0x32
  const CLEAR_CALIBRATION: byte := 0x33
  const GET_STATS: byte := 0x34
  const GET_LINK_INFO: byte := 0x40
  const CLEAR_LINK_INFO: byte := 0x41
  const GET_LINK_NAME: byte := 0x42
  const SET_LINK_NAME: byte := 0x43
  const GET_LINK_ITEM: byte := 0x44
  const SET_LINK_ITEM: byte := 0x45
  const FIRMWARE_FILE_START: byte := 0x50
  const FIRMWARE_FILE_BLOCK_START: byte := 0x51
  const FIRMWARE_FILE_BLOCK_DATA: byte := 0x52
  const FIRMWARE_FILE_VALIDATE_CHECK: byte := 0x53
  const FIRMWARE_FILE_FINALIZE: byte := 0x54
  const FIRMWARE_FILE_ABORT: byte := 0x55
  const FACTORY_CALIBRATE: byte := 0xFA

  // MoveCode
  const STOP: byte := 0
  const UP: byte := 1
  const DOWN: byte := 2
  const SMART_UP: byte := 3
  const SMART_DOWN: byte := 4
  const MOVE_REFERENCE: byte := 5
  const STOP_ERROR: byte := 6
  const OVERRIDE_UP: byte := 7
  const OVERRIDE_DOWN: byte := 8

  // SmartPointCode
  const REFERENCE: byte := 0
  const TOP: byte := 1
  const BOTTOM: byte := 2

  /** Length byte of a MOVE request's payload. */
  const MOVE_PAYLOAD_LENGTH: byte := 6
  /** Payload length a MOVE response must have. */
  const MOVE_RESPONSE_LENGTH: nat := 8
  /** Default speed of `build_move_packet`. */
  const DEFAULT_SPEED: byte := 100

  /** `[command][len(payload)][payload]`; `struct.pack("B", ...)` refuses a
      command or a length outside 0..255. */
  function BuildPacket(command: int, payload: seq<byte>): (r: seq<byte>)
    requires IsByte(command) && |payload| < 256
    ensures |r| == 2 + |payload|
    ensures r[0] == command && r[1] == |payload| && r[2..] == payload
  {
    [command as byte, |payload| as byte] + payload
  }

  /** A MOVE request: `[0x23, 6, code, speed] + LE32(avgPos)`, eight bytes. */
  function BuildMovePacket(moveCode: int, speed: int, avgPos: int): (r: seq<byte>)
    requires IsByte(moveCode) && IsByte(speed) && IsInt32(avgPos)
    ensures |r| == 8
    ensures r[..4] == [MOVE, MOVE_PAYLOAD_LENGTH, moveCode as byte, speed as byte]
    ensures Signed32(r[4..]) == avgPos
  {
    var r := BuildPacket(MOVE, [moveCode as byte, speed as byte] + LE32(avgPos));
    assert r[4..] == LE32(avgPos);
    Signed32OfLE32(avgPos);
    r
  }

  /** What `struct.pack("<BBi", ...)` does: the packet, or None where it
      would raise `struct.error`. */
  function TryBuildMovePacket(moveCode: int, speed: int, avgPos: int): (r: Option<seq<byte>>)
    ensures r.Some? <==> IsByte(moveCode) && IsByte(speed) && IsInt32(avgPos)
    ensures r.Some? ==> r.value == BuildMovePacket(moveCode, speed, avgPos)
  {
    if IsByte(moveCode) && IsByte(speed) && IsInt32(avgPos)
    then Some(BuildMovePacket(moveCode, speed, avgPos))
    else None
  }

  /** CALIBRATE (set smart point): `[0x32, 1, point]`. */
  function BuildSetSmartPointPacket(point: int): (r: seq<byte>)
    requires IsByte(point)
    ensures r == [CALIBRATE, 1, point as byte]
  {
    BuildPacket(CALIBRATE, [point as byte])
  }

  /** CLEAR_CALIBRATION (clear smart point): `[0x33, 1, point]`. */
  function BuildClearSmartPointPacket(point: int): (r: seq<byte>)
    requires IsByte(point)
    ensures r == [CLEAR_CALIBRATION, 1, point as byte]
  {
    BuildPacket(CLEAR_CALIBRATION, [point as byte])
  }

  datatype MoveResponse = MoveResponse(moveStatus: byte, errorCode: byte, position: int, weight: int)

  /** The `ValueError` raised for a payload that is not 8 bytes long. */
  datatype ParseError = InvalidMoveResponseLength(length: nat)

  /** `parse_move_response`: `<BBih` over exactly eight bytes. */
  function ParseMoveResponse(payload: seq<byte>): (r: Result<MoveResponse, ParseError>)
    ensures r.Err? <==> |payload| != MOVE_RESPONSE_LENGTH
    ensures r.Err? ==> r.error == InvalidMoveResponseLength(|payload|)
    ensures r.Ok? ==> r.value.moveStatus == payload[0] && r.value.errorCode == payload[1]
    ensures r.Ok? ==> IsInt32(r.value.position) && -0x8000 <= r.value.weight < 0x8000
  {
    if |payload| != MOVE_RESPONSE_LENGTH then Err(InvalidMoveResponseLength(|payload|))
    else Ok(MoveResponse(payload[0], payload[1], Signed32(payload[2..6]), Signed16(payload[6..8])))
  }

  /** A response whose fields fit the `<BBih` layout. */
  predicate WellFormedResponse(m: MoveResponse) {
    IsInt32(m.position) && -0x8000 <= m.weight < 0x8000
  }

  /** The eight bytes a lifter sends for a response (the inverse of the parser). */
  function MoveResponseBytes(m: MoveResponse): (r: seq<byte>)
    requires WellFormedResponse(m)
    ensures |r| == MOVE_RESPONSE_LENGTH
  {
    [m.moveStatus, m.errorCode] + LE32(m.position) + LE16(m.weight)
  }

  lemma {:induction false} ParseMoveResponseOfBytes(m: MoveResponse)
    requires WellFormedResponse(m)
    ensures ParseMoveResponse(MoveResponseBytes(m)) == Ok(m)
  {
    var s := MoveResponseBytes(m);
    assert s[2..6] == LE32(m.position);
    assert s[6..8] == LE16(m.weight);
    Signed32OfLE32(m.position);
    Signed16OfLE16(m.weight);
  }

  /** Every eight-byte payload is the encoding of the response parsed from it:
      the parser loses no information. */
  lemma {:induction false} BytesOfParseMoveResponse(payload: seq<byte>)
    requires |payload| == MOVE_RESPONSE_LENGTH
    ensures ParseMoveResponse(payload).Ok?
    ensures MoveResponseBytes(ParseMoveResponse(payload).value) == payload
  {
    var m := ParseMoveResponse(payload).value;
    LE32OfSigned32(payload[2..6]);
    var w: int := Signed16(payload[6..8]);
    var u := if w < 0 then w + 0x1_0000 else w;
    var b6: int, b7: int := payload[6], payload[7];
    assert u == b6 + 256 * b7;
    SplitLowByte(b6, b7);
    assert LE16(w) == payload[6..8];
    assert payload == [payload[0], payload[1]] + payload[2..6] + payload[6..8];
  }

  /** The avg-pos field of an 8-byte MOVE request decodes back to the value encoded. */
  lemma {:induction false} MovePositionRoundTrip(moveCode: int, speed: int, avgPos: int)
    requires IsByte(moveCode) && IsByte(speed) && IsInt32(avgPos)
    ensures Signed32(BuildMovePacket(moveCode, speed, avgPos)[4..8]) == avgPos
    ensures BuildMovePacket(moveCode, speed, avgPos)[4..8] == LE32(avgPos)
  {
    var r := BuildMovePacket(moveCode, speed, avgPos);
    assert r[4..8] == r[4..];
    LE32OfSigned32(r[4..]);
  }

  lemma HexOfZeroPosition(head: seq<byte>)
    requires |head| == 4
    ensures Hex(head + [0, 0, 0, 0]) == Hex(head) + "00000000"
  {
    HexAppend(head, [0, 0, 0, 0]);
    HexAppend([0, 0], [0, 0]);
    assert [0, 0] + [0, 0] == [0, 0, 0, 0];
  }

  /** The STOP/0/0 keep-alive frame is `2306000000000000`. */
  lemma StopVector()
    ensures Hex(BuildMovePacket(STOP, 0, 0)) == "2306" + "0000" + "00000000"
  {
    var head: seq<byte> := [0x23, 6, 0, 0];
    assert BuildMovePacket(STOP, 0, 0) == head + [0, 0, 0, 0];
    HexOfZeroPosition(head);
    HexAppend([0x23, 6], [0, 0]);
    assert head == [0x23, 6] + [0, 0];
  }

  /** The UP/100/0 frame is `2306016400000000`. */
  lemma UpVector()
    ensures Hex(BuildMovePacket(UP, 100, 0)) == "2306" + "0164" + "00000000"
  {
    var head: seq<byte> := [0x23, 6, 1, 100];
    assert BuildMovePacket(UP, 100, 0) == head + [0, 0, 0, 0];
    HexOfZeroPosition(head);
    HexAppend([0x23, 6], [1, 100]);
    assert head == [0x23, 6] + [1, 100];
  }

  /** SET_PASSKEY with key 2378a8dbc69c is `03062378a8dbc69c`; the GET and
      SET passkey commands share the code 0x03. */
  lemma PasskeyVector()
    ensures Hex(BuildPacket(SET_PASSKEY, [0x23, 0x78, 0xa8, 0xdb, 0xc6, 0x9c])) == "0306" + "2378" + "a8db" + "c69c"
    ensures GET_PASSKEY == SET_PASSKEY
  {
    var key: seq<byte> := [0x23, 0x78, 0xa8, 0xdb, 0xc6, 0x9c];
    var p1: seq<byte>, p2: seq<byte>, p3: seq<byte>, p4: seq<byte> := [0x03, 0x06], [0x23, 0x78], [0xa8, 0xdb], [0xc6, 0x9c];
    assert BuildPacket(SET_PASSKEY, key) == p1 + p2 + p3 + p4;
    HexAppend(p1, p2);
    HexAppend(p1 + p2, p3);
    HexAppend(p1 + p2 + p3, p4);
    assert Hex(p1) == "0306";
    assert Hex(p2) == "2378";
    assert Hex(p3) == "a8db";
    assert Hex(p4) == "c69c";
  }
}
