/** The packet-capture decoder of `verify_packets.py`: `parse_mylifter_packet`
    splits a frame into command, declared length and payload, classifies
    MOVE requests (6-byte payload) and MOVE responses (8-byte payload, weight
    read UNSIGNED here, unlike `parse_move_response`), and renders one line of
    text. The decoding is `Decode`; the text is `Render`. */
module CaptureParser {
  import opened Wrappers
  import opened Bytes
  import Protocol

  const CMD_MOVE: byte := 0x23
  const CMD_GET_STATS: byte := 0x34
  /** 0x05 is GET_PROTOCOL_VERSION in the client's table; GET_VERSION there is 0x0A. */
  const CMD_GET_VERSION: byte := 0x05
  const CMD_GET_NAME: byte := 0x08
  const CMD_SET_NAME: byte := 0x09
  const CMD_GET_PASSKEY: byte := 0x03
  const CMD_SET_PASSKEY: byte := 0x03
  const CMD_CALIBRATE: byte := 0x32
  const CMD_CLEAR_CALIB: byte := 0x33

  const OPCODE_MAP: map<int, string> := map[
    0x00 := "NACK", 0x01 := "ACK", 0x03 := "GET_PASSKEY", 0x05 := "GET_PROTOCOL_VERSION",
    0x06 := "CLEAR_ERROR", 0x08 := "GET_NAME", 0x09 := "SET_NAME", 0x0A := "GET_VERSION",
    0x23 := "MOVE", 0x25 := "GO_OVERRIDE", 0x32 := "CALIBRATE", 0x33 := "CLEAR_CALIBRATION",
    0x34 := "GET_STATS", 0x40 := "GET_LINK_INFO", 0x41 := "CLEAR_LINK_INFO",
    0x42 := "GET_LINK_NAME", 0x43 := "SET_LINK_NAME", 0x44 := "GET_LINK_ITEM",
    0x45 := "SET_LINK_item"]

  const MOVE_CODES: map<int, string> := map[
    0 := "Stop", 1 := "Up", 2 := "Down", 3 := "SmartUp", 4 := "SmartDown",
    5 := "MoveRef", 6 := "StopError", 7 := "OverrideUp", 8 := "OverrideDown"]

  /** What the parser recognised after the header. */
  datatype Body =
    | MoveCommand(moveCode: byte, speed: byte, avgPos: int)
    | MoveResponse(status: byte, error: byte, position: int, weight: nat)
    | MoveRaw(payload: seq<byte>)
    | GetStats
    | Calibrate(code: Option<byte>)
    | Other(payload: seq<byte>)

  datatype PacketInfo = ShortPacket | Info(cmd: byte, length: byte, body: Body)

  /** The classification `parse_mylifter_packet` performs. The declared length
      byte is reported but never compared with the payload. */
  function Decode(data: seq<byte>): (r: PacketInfo)
    ensures r.ShortPacket? <==> |data| < 2
    ensures r.Info? ==> r.cmd == data[0] && r.length == data[1]
    ensures |data| >= 2 && data[0] == CMD_GET_STATS ==> r.body == GetStats
    ensures |data| >= 2 && data[0] == CMD_CALIBRATE ==>
      r.body == Calibrate(if |data| > 2 then Some(data[2]) else None)
    ensures |data| >= 2 && data[0] !in {CMD_MOVE, CMD_GET_STATS, CMD_CALIBRATE} ==>
      r.body == Other(data[2..])
  {
    if |data| < 2 then ShortPacket
    else
      var cmd, payload := data[0], data[2..];
      var body :=
        if cmd == CMD_MOVE then
          if |payload| == 6 then MoveCommand(payload[0], payload[1], Signed32(payload[2..6]))
          else if |payload| == 8 then
            MoveResponse(payload[0], payload[1], Signed32(payload[2..6]), Unsigned16(payload[6..8]))
          else MoveRaw(payload)
        else if cmd == CMD_GET_STATS then GetStats
        else if cmd == CMD_CALIBRATE then Calibrate(if |payload| >= 1 then Some(payload[0]) else None)
        else Other(payload);
      Info(cmd, data[1], body)
  }

  /** `MOVE_CODES.get(code, code)` as it is formatted: the name, or the number. */
  function MoveCodeLabel(code: byte): (r: string)
    ensures code in MOVE_CODES ==> r == MOVE_CODES[code]
    ensures code !in MOVE_CODES ==> r == NatToDecimal(code)
  {
    if code in MOVE_CODES then MOVE_CODES[code] else NatToDecimal(code)
  }

  function RenderBody(b: Body): string {
    match b
    case MoveCommand(c, s, p) =>
      "[Move CMD] Code: " + MoveCodeLabel(c) + " (" + NatToDecimal(c) + "), Speed: "
      + NatToDecimal(s) + ", AvgPos: " + IntToDecimal(p)
    case MoveResponse(st, e, p, w) =>
      "[Move RSP] Status: " + NatToDecimal(st) + ", Error: " + NatToDecimal(e) + ", Pos: "
      + IntToDecimal(p) + ", Weight: " + NatToDecimal(w)
    case MoveRaw(p) => "[Move] Len=" + NatToDecimal(|p|) + " Raw: " + Hex(p)
    case GetStats => "[GetStats]"
    case Calibrate(c) => if c.Some? then "[Calibrate] Code: " + NatToDecimal(c.value) else ""
    case Other(p) => "Payload: " + Hex(p)
  }

  /** The text line: `CMD: 0x.. Len: n ` followed by the body's description. */
  function Render(info: PacketInfo): (r: string)
    ensures info.ShortPacket? <==> r == "Short packet"
  {
    match info
    case ShortPacket => "Short packet"
    case Info(cmd, length, body) =>
      "CMD: 0x" + HexUpper2(cmd) + " Len: " + NatToDecimal(length) + " " + RenderBody(body)
  }

  /** `parse_mylifter_packet`. */
  function ParseMylifterPacket(data: seq<byte>): (r: string)
    ensures r == "Short packet" <==> |data| < 2
  {
    Render(Decode(data))
  }

  /** A 6-byte MOVE payload decodes as code, speed and the signed LE32 avg-pos;
      an 8-byte one as status, error, signed LE32 position and UNSIGNED LE16
      weight; any other length is reported raw. */
  lemma MovePayloadClassification(data: seq<byte>)
    requires |data| >= 2 && data[0] == CMD_MOVE
    ensures |data| == 8 ==>
      Decode(data).body == MoveCommand(data[2], data[3], Signed32(data[4..8]))
    ensures |data| == 10 ==>
      Decode(data).body == MoveResponse(data[2], data[3], Signed32(data[4..8]), Unsigned16(data[8..10]))
    ensures |data| != 8 && |data| != 10 ==> Decode(data).body == MoveRaw(data[2..])
  {
    assert |data| == 8 ==> data[2..][2..6] == data[4..8];
    assert |data| == 10 ==> data[2..][2..6] == data[4..8] && data[2..][6..8] == data[8..10];
  }

  /** The declared length byte never influences the classification. */
  lemma {:induction false} LengthByteIgnored(data: seq<byte>, declared: byte)
    requires |data| >= 2
    ensures Decode(data[1 := declared]) == Info(data[0], declared, Decode(data).body)
  {
    assert data[1 := declared][2..] == data[2..];
  }

  /** Round trip: the capture parser recovers code, speed and avg-pos of every
      packet `build_move_packet` produces. */
  lemma {:induction false} DecodeBuildMovePacket(moveCode: int, speed: int, avgPos: int)
    requires IsByte(moveCode) && IsByte(speed) && IsInt32(avgPos)
    ensures Decode(Protocol.BuildMovePacket(moveCode, speed, avgPos))
         == Info(Protocol.MOVE, Protocol.MOVE_PAYLOAD_LENGTH, MoveCommand(moveCode as byte, speed as byte, avgPos))
  {
    var r := Protocol.BuildMovePacket(moveCode, speed, avgPos);
    assert r[2..][2..6] == r[4..];
  }

  /** A frame built by `build_packet` decodes with its own command and length
      byte, and the payload of an unrecognised command comes back verbatim. */
  lemma {:induction false} DecodeBuildPacket(command: int, payload: seq<byte>)
    requires IsByte(command) && |payload| < 256
    ensures Decode(Protocol.BuildPacket(command, payload)).cmd == command
    ensures Decode(Protocol.BuildPacket(command, payload)).length == |payload|
    ensures command != CMD_MOVE && command != CMD_GET_STATS && command != CMD_CALIBRATE ==>
      Decode(Protocol.BuildPacket(command, payload)).body == Other(payload)
  {
  }

  /** The CALIBRATE (set smart point) frame decodes with its point code, and
      the GET_STATS request decodes as such. */
  lemma {:induction false} DecodeSmartPointAndStats(point: int)
    requires IsByte(point)
    ensures Decode(Protocol.BuildSetSmartPointPacket(point))
         == Info(CMD_CALIBRATE, 1, Calibrate(Some(point as byte)))
    ensures Decode(Protocol.BuildPacket(Protocol.GET_STATS, [])) == Info(CMD_GET_STATS, 0, GetStats)
  {
  }

  /** The capture parser and `parse_move_response` agree on status, error and
      position of a MOVE response; their weights agree exactly when the top
      bit is clear, and otherwise differ by 65536. */
  lemma {:induction false} WeightSignedness(payload: seq<byte>)
    requires |payload| == 8
    ensures var c := Decode([CMD_MOVE, 8] + payload).body;
            var p := Protocol.ParseMoveResponse(payload).value;
            c.MoveResponse? && c.status == p.moveStatus && c.error == p.errorCode && c.position == p.position
            && (c.weight == p.weight <==> payload[7] < 0x80)
            && (payload[7] >= 0x80 ==> c.weight == p.weight + 0x1_0000)
  {
    var data := [CMD_MOVE, 8] + payload;
    assert data[2..] == payload;
  }

  lemma RenderStopBody()
    ensures RenderBody(MoveCommand(0, 0, 0))
         == "[Move CMD] Code: " + "Stop" + " (" + "0" + "), Speed: " + "0" + ", AvgPos: " + "0"
  {
    assert MoveCodeLabel(0) == "Stop";
    assert NatToDecimal(0) == "0";
    assert IntToDecimal(0) == "0";
  }

  lemma RenderMoveHead()
    ensures "CMD: 0x" + HexUpper2(0x23) + " Len: " + NatToDecimal(6) + " " == "CMD: 0x" + "23" + " Len: " + "6" + " "
  {
    assert HexUpper2(0x23) == "23";
    assert NatToDecimal(6) == "6";
  }

  /** The rendered line of the STOP keep-alive frame:
      `CMD: 0x23 Len: 6 [Move CMD] Code: Stop (0), Speed: 0, AvgPos: 0`. */
  lemma RenderStopFrame()
    ensures ParseMylifterPacket([0x23, 0x06, 0, 0, 0, 0, 0, 0])
         == "CMD: 0x" + "23" + " Len: " + "6" + " "
          + ("[Move CMD] Code: " + "Stop" + " (" + "0" + "), Speed: " + "0" + ", AvgPos: " + "0")
  {
    var data: seq<byte> := [0x23, 0x06, 0, 0, 0, 0, 0, 0];
    assert data[2..][2..6] == [0, 0, 0, 0];
    assert Decode(data) == Info(0x23, 6, MoveCommand(0, 0, 0));
    RenderStopBody();
    RenderMoveHead();
  }
}
