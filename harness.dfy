/** The test harness `harness.py`: the dispatch its notification handler
    performs on the leading command byte, the events it sets and the frames
    it sends in answer. */
module Harness {
  import opened Wrappers
  import opened Bytes
  import Protocol

  /** What one notification leads to. */
  datatype Reaction =
    | Ignored
    | SendPasskey(passkey: seq<byte>)
    | AckReceived(ackedCommand: byte, confirmsAuth: bool)
    | MoveStatus(parsed: Result<Protocol.MoveResponse, Protocol.ParseError>)
    | StatsReceived
    | VersionReceived

  /** The if/elif chain of `notification_handler`. Its separate SET_PASSKEY
      branch is kept but can never be taken: GET_PASSKEY has the same value
      and is tested first. */
  function Dispatch(data: seq<byte>): (r: Reaction)
    ensures |data| == 0 ==> r == Ignored
    ensures r.SendPasskey? <==> |data| >= 8 && data[0] == Protocol.GET_PASSKEY
    ensures r.SendPasskey? ==> r.passkey == data[2..8]
    ensures r.AckReceived? <==> |data| >= 3 && data[0] == Protocol.ACK
    ensures r.AckReceived? ==> r.ackedCommand == data[2] && (r.confirmsAuth <==> data[2] == Protocol.SET_PASSKEY)
    ensures r.MoveStatus? <==> |data| > 0 && data[0] == Protocol.MOVE
    ensures r.StatsReceived? <==> |data| > 0 && data[0] == Protocol.GET_STATS
    ensures r.VersionReceived? <==> |data| > 0 && data[0] == Protocol.GET_VERSION
  {
    if |data| == 0 then Ignored
    else
      var cmd := data[0];
      if cmd == Protocol.GET_PASSKEY then
        (if |data| >= 8 then SendPasskey(data[2..8]) else Ignored)
      else if cmd == Protocol.ACK then
        (if |data| >= 3 then AckReceived(data[2], data[2] == Protocol.SET_PASSKEY) else Ignored)
      else if cmd == Protocol.SET_PASSKEY then Ignored
      else if cmd == Protocol.MOVE then
        MoveStatus(Protocol.ParseMoveResponse(if |data| >= 2 then data[2..] else []))
      else if cmd == Protocol.GET_STATS then StatsReceived
      else if cmd == Protocol.GET_VERSION then VersionReceived
      else Ignored
  }

  /** A MOVE notification is parsed from `data[2:]`; a wrong length comes
      back as the parse error, which the handler catches. */
  lemma MoveNotification(data: seq<byte>)
    requires |data| >= 2 && data[0] == Protocol.MOVE
    ensures Dispatch(data) == MoveStatus(Protocol.ParseMoveResponse(data[2..]))
    ensures Dispatch(data).parsed.Err? <==> |data| != 10
  {
  }

  /** A passkey frame shorter than eight bytes is dropped: the second 0x03
      branch does not catch it. */
  lemma ShortPasskeyFrameIgnored(data: seq<byte>)
    requires 0 < |data| < 8 && data[0] == Protocol.SET_PASSKEY
    ensures Dispatch(data) == Ignored
  {
  }

  /** The `authenticate` reply: `build_packet(SET_PASSKEY, passkey)`. */
  function AuthenticatePacket(passkey: seq<byte>): (r: seq<byte>)
    requires |passkey| < 256
    ensures |r| == 2 + |passkey| && r[..2] == [Protocol.SET_PASSKEY, |passkey| as byte] && r[2..] == passkey
  {
    Protocol.BuildPacket(Protocol.SET_PASSKEY, passkey)
  }

  /** The first request of the handshake, `build_packet(GET_PASSKEY)`. */
  function PasskeyRequest(): (r: seq<byte>)
    ensures r == [0x03, 0x00]
  {
    Protocol.BuildPacket(Protocol.GET_PASSKEY, [])
  }

  /** The pushed six-byte key is echoed back as an eight-byte SET_PASSKEY frame
      whose payload is the key. */
  lemma {:induction false} PasskeyEcho(data: seq<byte>)
    requires |data| >= 8 && data[0] == Protocol.GET_PASSKEY
    ensures var reply := AuthenticatePacket(Dispatch(data).passkey);
            |reply| == 8 && reply[..2] == [0x03, 0x06] && reply[2..] == data[2..8]
  {
  }

  /** The harness's global events and the frames it has written. */
  class HarnessSession {
    var authEvent: bool
    var cmdEvent: bool
    var sent: seq<seq<byte>>

    constructor ()
      ensures !authEvent && !cmdEvent && sent == []
    {
      authEvent, cmdEvent, sent := false, false, [];
    }

    /** Step 1 of `run_harness`: send the passkey request. */
    method RequestPasskey()
      modifies this`sent
      ensures sent == old(sent) + [[0x03, 0x00]]
    {
      sent := sent + [PasskeyRequest()];
    }

    /** `notification_handler` followed by the `authenticate` task it spawns. */
    method NotificationHandler(data: seq<byte>)
      modifies this
      ensures authEvent == (old(authEvent) || (Dispatch(data).AckReceived? && Dispatch(data).confirmsAuth))
      ensures cmdEvent == (old(cmdEvent) || Dispatch(data).StatsReceived?)
      ensures sent == old(sent) + (if Dispatch(data).SendPasskey? then [AuthenticatePacket(Dispatch(data).passkey)] else [])
    {
      var reaction := Dispatch(data);
      match reaction {
        case SendPasskey(passkey) =>
          sent := sent + [AuthenticatePacket(passkey)];
        case AckReceived(_, confirms) =>
          if confirms {
            authEvent := true;
          }
        case StatsReceived =>
          cmdEvent := true;
        case _ =>
      }
    }
  }
}
