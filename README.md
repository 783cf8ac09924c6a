# PyLifter in Dafny

PyLifter drives MyLifter ceiling winches over Bluetooth Low Energy. Every
winch frame has the form `[command][payload length][payload]`. A MOVE request
carries `<BBi`: move code, speed and a little-endian int32 "average
position". A MOVE response carries `<BBih`: status, error code, int32 position
and int16 weight. On top of this wire format the repository builds:

- a per-winch client that keeps the winch alive by re-sending its target MOVE
  frame;
- a four-winch cable robot that moves a hook point inside a box room;
- a few utilities: a packet-capture decoder, a pairing script, a test
  harness, an interactive single-winch demo and a calibration script.

This project models the logic of those files and proves properties of it.

| module | file | models |
|---|---|---|
| `Wrappers`, `Bytes` | `wrappers.dfy`, `bytes.dfy` | Option/Result; bytes, int16/int32 two's complement in little-endian order (what `struct` does), hex and decimal text |
| `Protocol` | `protocol.dfy` | `pylifter/protocol.py`: command codes, frame builders, the MOVE response parser |
| `CaptureParser` | `capture_parser.dfy` | `verify_packets.py`: `parse_mylifter_packet` and its tables |
| `TestConnection` | `test_connection.dfy` | `testconnection.py`: its four command builders and the passkey extraction in its handler |
| `Harness` | `harness.dfy` | `harness.py`: the notification dispatch, the events it sets and the frames it sends |
| `Client` | `client.dfy` | `pylifter/client.py`: `PyLifterClient` as a class whose transport writes are appended to a `sent` log |
| `Kinematics` | `kinematics.dfy` | `cable_robot_demo.py`: inverse kinematics, `is_safe`, `find_safe_boundary`, `find_max_height` |
| `Coordinator` | `coordinator.dfy` | `cable_robot_demo.py`: `move_to` planning and aggregation, `_monitor_single_move`, `SimulatedLifterClient.sim_update_pos` |
| `WinchInteractive` | `winch_interactive.dfy` | `winch_demo_interactive.py`: `monitor_move` and the `U`/`D` target computation |
| `CalibrateUnits` | `calibrate_units.dfy` | `calibrate_units.py`: `move_until_stop` and the two-point fit |

How the model is built:

- Integers are unbounded. The byte, int16 and int32 ranges that `struct`
  enforces are written out as predicates. A packing error is either a
  precondition of the builder or, where the caller reacts to it, a `None`
  (`TryBuildMovePacket`) or a `raised` flag.
- Geometry is over `real`:
  - `tan(radians(safe_angle_deg))` is the field `Geometry.maxTan`;
  - the square root is a function parameter `sqrt`; the lemmas that need a
    true square root require `IsSqrt(sqrt)`;
  - the steepness test of `is_safe` compares squares, which `SteepTestIsExact`
    proves equivalent to the division while the drop is positive.
- Python's `int()` on a float is `Coordinator.Trunc`, truncation toward zero.
- Routines that poll a winch in a loop become methods with `while` loops. Each
  reads a trace of observations, one per pass. Each is proved against a
  function that states the rule over the whole trace:
  - `FirstExit` for `_monitor_single_move`;
  - `Run` for `monitor_move`;
  - `Stalled` and `ExitsAt` for `move_until_stop`.
- The objects whose fields the source updates are classes:
  - `Client.PyLifterClient`;
  - `Coordinator.CableRobot` (its `last_target`);
  - `Coordinator.SimulatedLifterClient`;
  - the handler state of `harness.py` and `testconnection.py`.

Three consequences of the code that a reader might not expect:

- `is_safe(200, 200, 150)` in the default 400 × 400 × 300 room at 60° is
  refused. The horizontal distance to each pulley is 282.8 and the drop is
  150, so the tangent is 1.886 > tan 60° = 1.732.
  `Kinematics.SafetyTestVectors` proves the verdict `TooSteep(1)`.
- The keep-alive frame always carries average position 0. Nothing in
  `client.py` assigns `_last_known_position` after `__init__`; the only such
  code is the commented-out parser at lines 156-212. `Client.PyLifterClient.Valid`
  keeps `lastKnownPosition == 0` as an invariant.
- `get_stats` always times out. The handler never resolves `_stats_future`.

Other facts about the code that the model reproduces:

- `move_to` returns a bare `False` on either rejection and a tuple otherwise.
  The model has `RejectedUnsafe`, `RejectedDisconnected` and
  `Finished(committed, ids)`.
- A monitor task that fails with an exception (`Failed`) does not stop the
  move from committing (`Coordinator.AggregateMeaning`).
- `calibrate_units.py` checks `delta_dist == 0` before dividing, but not
  `delta_pos == 0` (line 108). That case raises `ZeroDivisionError`, which
  the script's outer handler catches. It is `Err(ZeroPositionDelta)` in
  `CalibrateUnits.Fit`.
- The capture parser reads the response weight as unsigned, while
  `parse_move_response` reads it as signed (`CaptureParser.WeightSignedness`).
- The builders of `testconnection.py` do not follow the frame layout:
  - the set-passkey command has no length byte;
  - the reauthentication command declares two payload bytes and carries one;
  - the poll command is three bytes long.
- A demo calls client methods that `client.py` does not define:
  `current_distance`, `last_error_code`, `clear_error`, `go_override` and
  `set_unit_calibration`. Their results enter the model as observations in a
  poll trace, and the calls as entries of a call log.

## Model

| member | source | states |
|---|---|---|
| `Bytes.Signed32` | PyLifter/pylifter/protocol.py:99 | `<i` decoding gives a value in the int32 range, negative exactly when the top bit of the last byte is set |
| `Bytes.Signed16` | PyLifter/pylifter/protocol.py:99 | `<h` decoding gives a value in the int16 range, negative exactly when the top bit of the last byte is set |
| `Bytes.Signed32OfLE32` | PyLifter/pylifter/protocol.py:68 | decoding the `<i` encoding of any int32 gives the value back |
| `Bytes.LE32OfSigned32` | PyLifter/pylifter/protocol.py:99 | encoding the decoded value of any four bytes gives the bytes back |
| `Bytes.Signed16OfLE16` | PyLifter/pylifter/protocol.py:99 | decoding the `<h` encoding of any int16 gives the value back |
| `Bytes.IntToDecimal` | PyLifter/verify_packets.py:74 | the decimal text is non-empty and starts with `-` exactly for negative numbers |
| `Bytes.NatToDecimalValue` | PyLifter/verify_packets.py:74 | `str(n)` of a natural number is all digits, has no leading zero, and its digits denote `n` (`DecimalValue`) |
| `Bytes.IntToDecimalValue` | PyLifter/verify_packets.py:74 | `str(n)` of a negative number is `-` followed by the digits of `-n`; of any other number, the digits of `n` |
| `Protocol.BuildPacket` | PyLifter/pylifter/protocol.py:54-61 | the frame is the command, then the payload length, then the payload; it has length 2 + the payload length; command and length must fit a byte |
| `Protocol.BuildMovePacket` | PyLifter/pylifter/protocol.py:63-69 | 8 bytes: `[0x23, 6, code, speed]` followed by the int32 avg-pos; code and speed must fit a byte, avg-pos the int32 range |
| `Protocol.TryBuildMovePacket` | PyLifter/pylifter/protocol.py:63-69 | the packet exists exactly when code, speed and avg-pos are in range, and then equals `BuildMovePacket` |
| `Protocol.BuildSetSmartPointPacket` | PyLifter/pylifter/protocol.py:71-77 | the set-smart-point packet is `[0x32, 1, point]` |
| `Protocol.BuildClearSmartPointPacket` | PyLifter/pylifter/protocol.py:79-85 | the clear-smart-point packet is `[0x33, 1, point]` |
| `Protocol.ParseMoveResponse` | PyLifter/pylifter/protocol.py:87-106 | a payload whose length is not 8 is an error carrying that length; otherwise status = b0, error = b1, and the position and weight are in the int32 and int16 ranges |
| `Protocol.ParseMoveResponseOfBytes` | PyLifter/pylifter/protocol.py:99-106 | parsing the 8 bytes of any well-formed response gives that response |
| `Protocol.BytesOfParseMoveResponse` | PyLifter/pylifter/protocol.py:96-106 | every 8-byte payload parses, and the parse re-encodes to the same bytes |
| `Protocol.MovePositionRoundTrip` | PyLifter/pylifter/protocol.py:68 | bytes 4..8 of a MOVE packet are `LE32(avgPos)` and decode back to `avgPos` |
| `Protocol.StopVector` | PyLifter/verify_packets_struct.py:4-8 | STOP, speed 0, position 0 is the frame `2306000000000000` |
| `Protocol.UpVector` | PyLifter/verify_packets_struct.py:9-12 | UP, speed 100, position 0 is the frame `2306016400000000` |
| `Protocol.PasskeyVector` | PyLifter/verify_raw_movement.py:11 | SET_PASSKEY with key `2378a8dbc69c` is `03062378a8dbc69c`; GET_PASSKEY and SET_PASSKEY are the same code |
| `CaptureParser.Decode` | PyLifter/verify_packets.py:53-95 | the result is "short" exactly for inputs under 2 bytes; otherwise cmd = data[0] and length = data[1]; GET_STATS decodes as `GetStats`; CALIBRATE carries the first payload byte as its code, or no code for an empty payload; any command other than MOVE, GET_STATS and CALIBRATE keeps its payload verbatim |
| `CaptureParser.DecodeSmartPointAndStats` | PyLifter/verify_packets.py:86-92 | the set-smart-point frame for a point decodes as `Calibrate` with that point, and the GET_STATS request as `GetStats` with length 0 |
| `CaptureParser.MoveCodeLabel` | PyLifter/verify_packets.py:74 | a known move code shows its name from `MOVE_CODES`; an unknown one shows its number |
| `CaptureParser.Render` | PyLifter/verify_packets.py:54-55 | the text is `Short packet` exactly for a short packet |
| `CaptureParser.ParseMylifterPacket` | PyLifter/verify_packets.py:53-97 | the output is `Short packet` exactly when the input is shorter than 2 bytes |
| `CaptureParser.MovePayloadClassification` | PyLifter/verify_packets.py:68-83 | a 6-byte MOVE payload is code, speed and signed avg-pos; an 8-byte one is status, error, signed position and unsigned weight; any other length is reported raw |
| `CaptureParser.LengthByteIgnored` | PyLifter/verify_packets.py:61-64 | replacing the declared length byte changes the reported length and nothing else |
| `CaptureParser.DecodeBuildMovePacket` | PyLifter/verify_packets.py:69-74 | decoding any `build_move_packet` output gives back its code, speed and avg-pos |
| `CaptureParser.DecodeBuildPacket` | PyLifter/verify_packets.py:94-95 | a built frame decodes with its own command and length; the payload of an unrecognised command comes back unchanged |
| `CaptureParser.WeightSignedness` | PyLifter/verify_packets.py:75-81 | on a MOVE response the capture parser and `parse_move_response` agree on status, error and position; their weights agree exactly when the top bit is clear, and otherwise differ by 65536 |
| `CaptureParser.RenderStopFrame` | PyLifter/verify_packets.py:66-74 | the STOP frame renders as `CMD: 0x23 Len: 6 [Move CMD] Code: Stop (0), Speed: 0, AvgPos: 0` |
| `TestConnection.BuildSetPasskeyCommand` | testconnection.py:41-43 | the command is `0x03` followed by the key, with no length byte |
| `TestConnection.BuildSimpleCommand` | testconnection.py:45-47 | the command is `[code, 0x00]` |
| `TestConnection.BuildReauthenticationCommand` | testconnection.py:49-51 | the command is `[0x08, 0x02, b]` |
| `TestConnection.BuildPollCommand` | testconnection.py:53-55 | the command is `[0x23, 0x06, 0x00]` |
| `TestConnection.SimpleCommandIsEmptyFrame` | testconnection.py:45-47 | the simple command equals `build_packet(code)` with an empty payload |
| `TestConnection.SetPasskeyCommandLacksLength` | testconnection.py:41-43 | the set-passkey command is one byte shorter than the client's frame, and a decoder reads the key's first byte as the length |
| `TestConnection.ReauthenticationDeclaresTwoCarriesOne` | testconnection.py:49-51 | the reauthentication command declares 2 payload bytes and carries 1 |
| `TestConnection.PollCommandDecodesRaw` | testconnection.py:53-55 | the poll command is a MOVE frame with a 1-byte payload: the capture parser reports it raw and `parse_move_response` rejects it |
| `TestConnection.ExtractPasskey` | testconnection.py:70-86 | a key is found exactly for frames that start with 0x03 and have more than 2 bytes: data[3:5] when there are more than 4 bytes, else data[1:3]; the key always has 2 bytes |
| `TestConnection.PairingListener.NotificationHandler` | testconnection.py:67-86 | a passkey push stores its key and sets the event; every other frame, the empty one included, changes nothing |
| `Harness.Dispatch` | PyLifter/harness.py:49-93 | the empty frame is ignored; a passkey push needs 0x03 and at least 8 bytes and yields data[2:8]; an ACK needs at least 3 bytes and confirms auth exactly when data[2] = 0x03; MOVE, GET_STATS and GET_VERSION are recognised by their first byte |
| `Harness.MoveNotification` | PyLifter/harness.py:80-86 | a MOVE frame passes data[2:] to `parse_move_response`; the parse fails exactly when the frame is not 10 bytes long |
| `Harness.ShortPasskeyFrameIgnored` | PyLifter/harness.py:53-77 | a 0x03 frame shorter than 8 bytes is dropped, because the SET_PASSKEY branch is never reached |
| `Harness.AuthenticatePacket` | PyLifter/harness.py:143-148 | the reply is `[0x03, len(key)]` followed by the key |
| `Harness.PasskeyRequest` | PyLifter/harness.py:100 | the first request is `[0x03, 0x00]` |
| `Harness.PasskeyEcho` | PyLifter/harness.py:55-61 | the pushed six-byte key is sent back as the 8-byte frame `03 06` followed by the key |
| `Harness.HarnessSession.RequestPasskey` | PyLifter/harness.py:98-101 | the passkey request is appended to the sent log |
| `Harness.HarnessSession.NotificationHandler` | PyLifter/harness.py:49-93 | the auth event is raised on a confirming ACK, the command event on GET_STATS, and a passkey push appends the reply frame; nothing else changes |
| `Client.AuthAckAgreesWithHarness` | PyLifter/pylifter/client.py:149-150 | the client and the harness treat exactly the same frames as an auth ACK |
| `Client.StopFrameUsesDefaultSpeed` | PyLifter/pylifter/client.py:133 | the immediate stop frame is `2306006400000000`: speed 100, not the target speed 0 |
| `Client.PyLifterClient.constructor` | PyLifter/pylifter/client.py:11-24 | target STOP at speed 0, not connected, no polling task, no transport, position 0, nothing sent |
| `Client.PyLifterClient.Connect` | PyLifter/pylifter/client.py:26-39 | the connected flag goes up, then the client authenticates (as in `Authenticate`, including its task count); the target is unchanged |
| `Client.PyLifterClient.Authenticate` | PyLifter/pylifter/client.py:95-115 | the auth event is cleared. With a key, `[0x03, len, key]` is written and then a polling task exists; `tasksStarted` grows by one exactly when the write succeeded and no task existed before, so a call made while a task exists starts none. Without a key nothing is written and no task starts. It raises for a key of 256 bytes or more and when there is no transport |
| `Client.PyLifterClient.Disconnect` | PyLifter/pylifter/client.py:48-66 | afterwards the client is not connected and has no task and no transport; on a client already torn down it changes nothing |
| `Client.PyLifterClient.KeepAliveIteration` | PyLifter/pylifter/client.py:68-93 | no frame is written when not connected. A packing error ends the loop. A failed write writes nothing and the loop goes on. Otherwise exactly the frame for the target code and speed is written, and it carries position 0 |
| `Client.PyLifterClient.Move` | PyLifter/pylifter/client.py:117-124 | the target becomes (direction, speed). Exactly one frame `build_move_packet(direction, speed, 0)` is written, and only with a transport and the connected flag up. An out-of-range code or speed raises after the target has changed |
| `Client.PyLifterClient.Stop` | PyLifter/pylifter/client.py:126-135 | the target becomes STOP at speed 0; the frame written, only when connected, is STOP at speed 100 and position 0 |
| `Client.PyLifterClient.GetStats` | PyLifter/pylifter/client.py:137-141 | with a transport it writes `[0x34, 0x00]` and times out; without one it writes nothing |
| `Client.PyLifterClient.NotificationHandler` | PyLifter/pylifter/client.py:143-150 | the auth event is set exactly for a frame of at least 3 bytes with data[0] = 0x01 and data[2] = 0x03 |
| `Client.PyLifterClient.FactoryCalibrate` | PyLifter/pylifter/client.py:214-221 | writes `[0xFA, 1, code]` even when the connected flag is down; raises without a transport or when the code does not fit a byte |
| `Client.PyLifterClient.ClearCalibration` | PyLifter/pylifter/client.py:223-231 | writes the clear-smart-point frame `[0x33, 1, code]`; the same error cases as factory calibration |
| `Client.PyLifterClient.SendSetPasskey` | PyLifter/pylifter/client.py:233-235 | writes `[0x03, len, key]`; raises for a key of 256 bytes or more or without a transport |
| `Client.KeepAliveAfterMove` | PyLifter/pylifter/client.py:71-115 | after connecting with a key, re-authenticating and moving UP at 50, exactly one keep-alive task has been started and its frame is `[0x23, 6, 1, 50, 0, 0, 0, 0]` |
| `Client.AuthenticateTwice` | PyLifter/pylifter/client.py:95-115 | two `_authenticate` calls in a row, from any state, start at most one keep-alive task; when the first succeeds with a key, exactly one is started if none existed before and none otherwise |
| `Kinematics.DefaultGeometry` | PyLifter/cable_robot_demo.py:89-96 | the default room is 400 × 400 × 300 cm, with a 20 cm floor margin and a 50 cm ceiling margin |
| `Kinematics.InverseKinematics` | PyLifter/cable_robot_demo.py:115-125 | the result has exactly the keys 1..4, and each value is the root of the squared distance to that winch's pulley |
| `Kinematics.InverseKinematicsAreDistances` | PyLifter/cable_robot_demo.py:106-125 | with a true square root, each length is non-negative, squares to the distance to its pulley, and is at least the vertical drop |
| `Kinematics.CentreIsSymmetric` | PyLifter/cable_robot_demo.py:106-125 | above the room's centre all four lengths are equal |
| `Kinematics.InverseKinematicsTestVector` | PyLifter/verify_math.py:21-25 | at (200, 200, 150) in the default room every length is sqrt(102500) |
| `Kinematics.FirstSteepMeaning` | PyLifter/cable_robot_demo.py:148-157 | the anchor loop reports the first steep cable in order 1..4, or `Safe` exactly when none is steep |
| `Kinematics.IsSafeMeaning` | PyLifter/cable_robot_demo.py:127-157 | the checks run in order X, Y, Z, singularity, cables 1..4, and the verdict is the first that fails, both ways; `Safe` exactly when every check passes |
| `Kinematics.SteepTestIsExact` | PyLifter/cable_robot_demo.py:151-154 | while the drop is positive, the square-free test agrees with `horiz_dist / h_dist > max_tan` |
| `Kinematics.NoSingularityBelowMargin` | PyLifter/cable_robot_demo.py:134-144 | with a ceiling margin above 0.1, the singularity verdict cannot occur |
| `Kinematics.SafetyTestVectors` | PyLifter/cable_robot_demo.py:127-157 | in the default room at 60°: (200, 200, 150) → cable 1 too steep; (200, 200, 100) safe; (200, 200, 280) Z out of bounds; (10, 10, 150) → cable 2 too steep; (−1, 500, 150) X out of bounds |
| `Kinematics.BisectionInvariant` | PyLifter/cable_robot_demo.py:294-308 | after n halvings, 0 ≤ best = low < high ≤ 1, the bracket is 2^−n wide, and best is 0 or a parameter that tested safe |
| `Kinematics.FindSafeBoundary` | PyLifter/cable_robot_demo.py:280-313 | a safe target comes back unchanged; otherwise the result is the ray point at the parameter the 10-step bisection settles on, and it is safe or is the room's centre |
| `Kinematics.BisectionEndsSafeOrAtCentre` | PyLifter/cable_robot_demo.py:304-313 | the point at the final parameter is safe or is the centre |
| `Kinematics.BisectionPrecision` | PyLifter/cable_robot_demo.py:298-308 | ten halvings leave a bracket of 1/1024, and 0 ≤ best < 1 |
| `Kinematics.MaxHorizBounds` | PyLifter/cable_robot_demo.py:327-332 | the running maximum is non-negative and bounds every pulley's horizontal distance |
| `Kinematics.FindMaxHeight` | PyLifter/cable_robot_demo.py:315-342 | the division fails exactly when the tangent is 0. Otherwise the result is at most height − ceiling margin, and is the lower of the angle limit for the farthest pulley and that ceiling limit |
| `Kinematics.MaxHeightKeepsAngle` | PyLifter/cable_robot_demo.py:320-342 | at the returned height no cable exceeds the safe angle |
| `Kinematics.MaxHeightIsSafe` | PyLifter/cable_robot_demo.py:315-342 | over the floor, with a ceiling margin above 0.1 and an answer no lower than the floor margin, the answer passes `is_safe` |
| `Coordinator.TruncMeaning` | PyLifter/cable_robot_demo.py:237 | Python's `int()` truncates toward zero: up to 1 below a non-negative value, up to 1 above a negative one |
| `Coordinator.SyncSpeedBounds` | PyLifter/cable_robot_demo.py:246-253 | the synchronised speed always lies in [25, 100] |
| `Coordinator.SyncSpeedUnscaled` | PyLifter/cable_robot_demo.py:246-249 | when every change is at most 0.5 cm, a speed already in [25, 100] is used unscaled |
| `Coordinator.SyncSpeedFarthest` | PyLifter/cable_robot_demo.py:246-253 | the winch with the largest change runs at the requested speed, clamped to [25, 100] |
| `Coordinator.SyncSpeedMonotone` | PyLifter/cable_robot_demo.py:246-253 | a winch with a larger change never runs slower |
| `Coordinator.TargetPosInvertsCalibration` | PyLifter/cable_robot_demo.py:237 | converting a length back to a position inverts the linear calibration on lengths that a whole position produces |
| `Coordinator.MaxDeltaMeaning` | PyLifter/cable_robot_demo.py:212-223 | the largest change is non-negative, bounds each configured winch's change, and is 0 or the change of one of them |
| `Coordinator.CommandForIsPlanned` | PyLifter/cable_robot_demo.py:235-253 | a command's speed is in [25, 100], and it retracts (UP) exactly when the target length is below the current one |
| `Coordinator.CommandsMeaning` | PyLifter/cable_robot_demo.py:232-258 | there is exactly one command per configured winch with a non-zero slope, in winch order, each planned as above; winches with slope 0 are skipped |
| `Coordinator.PlanMove` | PyLifter/cable_robot_demo.py:212-258 | the loops compute the largest change and the command list that `CommandsMeaning` characterises |
| `Coordinator.MonitorStepMeaning` | PyLifter/cable_robot_demo.py:355-379 | a step raises the abort exactly on a disconnect with no abort yet; it reports a soft limit exactly on error 0x81 while connected and not aborted; it continues exactly when the position is known and at least 200 counts from the target |
| `Coordinator.FirstExit` | PyLifter/cable_robot_demo.py:355-379 | every poll before the exit index continues, and the poll at that index (if any) ends the loop |
| `Coordinator.SoftLimitIdsMeaning` | PyLifter/cable_robot_demo.py:263-266 | an id is listed exactly when its task reported a soft limit; the list is empty exactly when no task did |
| `Coordinator.AggregateMeaning` | PyLifter/cable_robot_demo.py:263-278 | the move commits exactly when no abort was raised and no task hit a soft limit. An abort gives `(False, [])`. Otherwise the soft-limit ids are those of the tasks that hit one |
| `Coordinator.CheckConnected` | PyLifter/cable_robot_demo.py:201-205 | the result is true exactly when every configured winch is connected |
| `Coordinator.CollectSoftLimitIds` | PyLifter/cable_robot_demo.py:263-266 | the loop collects the ids that `SoftLimitIds` describes, in task order |
| `Coordinator.CableRobot.constructor` | PyLifter/cable_robot_demo.py:86-113 | a new robot has no committed target |
| `Coordinator.CableRobot.MonitorSingleMove` | PyLifter/cable_robot_demo.py:344-390 | start the winch (a simulated move in sim mode), then poll until the first exit. The result is OK, or `SOFT_LIMIT` on error 0x81. The abort is raised only on a disconnect. Outside sim mode a stop is always sent after the loop |
| `Coordinator.CableRobot.MoveTo` | PyLifter/cable_robot_demo.py:194-278 | an unsafe point is rejected with its verdict, then a disconnected winch rejects the move, both before any command. Otherwise the commands are the planned ones and the outcome aggregates their results. `last_target` changes only on a committed move |
| `Coordinator.InterpolationBetween` | PyLifter/cable_robot_demo.py:70-82 | every interpolated position lies between the start and the target |
| `Coordinator.InterpolationEndsAtTarget` | PyLifter/cable_robot_demo.py:74-78 | the 20th interpolated position is the target |
| `Coordinator.SimulatedLifterClient.constructor` | PyLifter/cable_robot_demo.py:22-30 | no connection, position 0, slope 1, intercept 0, distance 0 |
| `Coordinator.SimulatedLifterClient.SimUpdatePos` | PyLifter/cable_robot_demo.py:70-82 | a connected client ends at the target, showing the calibrated distance of the target; a disconnected one does not move |
| `WinchInteractive.MonitorMove` | PyLifter/winch_demo_interactive.py:11-105 | an unknown start position makes no call. Otherwise: clear the error, move at 100, make the calls `Run` gives for the polls, and stop once the loop has been left |
| `WinchInteractive.NoCallsAfterOverride` | PyLifter/winch_demo_interactive.py:50-66 | once the limit is overridden, error 0x81 is ignored and the loop makes no further call |
| `WinchInteractive.OverrideAtMostOnce` | PyLifter/winch_demo_interactive.py:50-97 | at most one override per move; every re-issued move uses the override code for its direction at speed 100 |
| `WinchInteractive.ReachedOrEndOfTravelLeaves` | PyLifter/winch_demo_interactive.py:42-77 | reaching the target (UP: at or above it; otherwise at or below it), or error 0x86, ends the loop with no further call |
| `WinchInteractive.JogAgreesWithStopRule` | PyLifter/winch_demo_interactive.py:202-218 | with a negative slope, `U` aims UP at a position no lower than the current one, and `D` aims DOWN at one no higher |
| `WinchInteractive.JogRefusesZeroSlope` | PyLifter/winch_demo_interactive.py:214-216 | a zero slope is refused before dividing |
| `CalibrateUnits.MoveUntilStop` | PyLifter/calibrate_units.py:12-43 | start at speed 100. The loop leaves at the first pass that sees 0x86 or a stall count above 60, and then a stop is sent |
| `CalibrateUnits.StalledMeaning` | PyLifter/calibrate_units.py:30-38 | the stall count is the length of the run of passes that saw an unchanged position |
| `CalibrateUnits.StallExitMeaning` | PyLifter/calibrate_units.py:31-35 | a stall exit comes only after 61 consecutive passes at one position |
| `CalibrateUnits.StallDetected` | PyLifter/calibrate_units.py:31-35 | 61 passes at the start position, with no 0x86, end the loop on the 61st and not before |
| `CalibrateUnits.FitErrors` | PyLifter/calibrate_units.py:100-136 | the fit fails, in this order: equal distances; then equal positions (the unguarded division); then a bottom position at the mean of the top two |
| `CalibrateUnits.FitThroughPoints` | PyLifter/calibrate_units.py:127-139 | a successful fit passes through the averaged top point and the bottom point, and its two scale figures are reciprocal |

## Left out

- The BLE transport: scanning, connecting, GATT characteristics and notify
  subscription. It is reduced to "a transport exists" and a log of written
  frames. A connection attempt that fails (`BleakClient.connect` raising) is
  not modelled; `Connect` models the successful one.
- asyncio: tasks, `gather`, events, sleeps and timeouts. Concurrency and
  timing are not modelled. A polling loop is one method over a trace of what
  it observes, and `move_to` receives the gathered results and the final
  state of the abort event.
- Floating-point rounding. The geometry and the fit use `real`; `sqrt`, `tan`,
  `radians` and `atan` are parameters or fields.
- The degree text of the steepness reason (cable_robot_demo.py:155). The
  verdict keeps only the cable number.
- `Coordinator.CableRobot.MoveTo`: it gets the simulated winches' distances as
  inputs. It does not model their moves during the monitor's sleeps, or a
  disconnection during them.
- `CableRobot.initialize_winches` and the demos' `main` loops: configuration
  loading, CLI parsing, prompts and printing. The `U`/`D` target computation
  is modelled; everything else is I/O.
- The sim client's `connect`, `disconnect`, `move`, `stop`,
  `set_unit_calibration`, `set_smart_point`, `clear_smart_point` and
  `get_stats`. They set a flag, print, or do nothing.
- `analyze_pcap` in `verify_packets.py`: it reads a capture file.
- `cable_robot_plot.py`: plotting.
- The hardware scripts `winch_demo.py`, `calibrate_distance.py`,
  `verify_client.py`, `verify_movement_minimal.py` and
  `verify_raw_movement.py`, and the checks in `verify_math.py` and
  `verify_packets_struct.py`. Their test vectors appear as lemmas.
- `main_sequence` of `testconnection.py` (connection, pairing wait and the
  polling loop).
- The commented-out response parser at client.py:156-212. It is dead code.
- The hex-string parsing of the passkey in `PyLifterClient.__init__`
  (`bytes.fromhex`). The model takes the key's bytes, or None.
- The validation move of `calibrate_units.py` and its `est_val_dist`. They
  are a timed move and printed output.
- The stray closing fence at the end of `calibrate_units.py`. It would stop
  the script from parsing at all, and cannot be expressed in a model of
  its behaviour.
- Client methods that demos call but `client.py` does not define
  (`current_distance`, `last_error_code`, `clear_error`, `go_override`,
  `set_unit_calibration`, `set_smart_point`). They are not given behaviour.
  Their results are observations and the calls are log entries. With the real
  client these demos would stop with an `AttributeError`.
