/** The single-winch interactive demo, `winch_demo_interactive.py`: the
    stop/override rule of `monitor_move` and the target position the `U`
    and `D` commands compute.

    The winch is observed through a trace of polls; each poll carries the
    position and error code the loop reads, and the operator's answer if
    the loop asks whether to override a soft limit. The calls the routine
    makes on its client are recorded in order. */
module WinchInteractive {
  import opened Wrappers
  import Protocol
  import Coordinator

  /** A request the routine makes of its client. */
  datatype Call = ClearError | GoOverride | MoveCall(code: int, speed: int) | StopCall

  datatype Poll = Poll(position: int, errorCode: int, overrideAccepted: bool)

  const END_OF_TRAVEL := 0x86
  const SOFT_LIMIT := 0x81

  /** What one pass of the loop decides. */
  datatype Decision =
    | Reached           // the target was passed in the direction of travel
    | EndOfTravel       // error 0x86
    | Overridden        // error 0x81, operator said yes: clear, override, resume
    | Declined          // error 0x81, operator said no
    | KeepGoing

  /** The override code for a direction: the `else` branch serves every
      direction other than UP. */
  function OverrideCode(direction: int): int
  {
    if direction == Protocol.UP then Protocol.OVERRIDE_UP else Protocol.OVERRIDE_DOWN
  }

  /** Lines 42-97. Moving UP the target is reached once the position is at
      least the target; any other direction is treated as DOWN, reached once
      the position is at most the target. */
  function Decide(poll: Poll, targetPos: int, direction: int, overridden: bool): Decision
  {
    var reached := if direction == Protocol.UP then poll.position >= targetPos else poll.position <= targetPos;
    if reached then Reached
    else if poll.errorCode == END_OF_TRAVEL then EndOfTravel
    else if poll.errorCode == SOFT_LIMIT && !overridden then (if poll.overrideAccepted then Overridden else Declined)
    else KeepGoing
  }

  /** The calls the loop makes over a trace, and whether it has left. */
  function Run(polls: seq<Poll>, targetPos: int, direction: int, overridden: bool): (seq<Call>, bool)
  {
    if polls == [] then ([], false)
    else
      match Decide(polls[0], targetPos, direction, overridden)
      case Reached => ([], true)
      case EndOfTravel => ([], true)
      case Declined => ([StopCall], true)
      case Overridden =>
        var rest := Run(polls[1..], targetPos, direction, true);
        ([StopCall, ClearError, GoOverride, MoveCall(OverrideCode(direction), 100)] + rest.0, rest.1)
      case KeepGoing => Run(polls[1..], targetPos, direction, overridden)
  }

  /** `monitor_move`: with a known start position, clear errors, start the
      move at speed 100, poll, and stop once the loop has been left. */
  method MonitorMove(startPos: Option<int>, targetPos: int, direction: int, polls: seq<Poll>)
    returns (calls: seq<Call>, left: bool)
    ensures startPos.None? ==> calls == [] && !left
    ensures startPos.Some? ==>
      var run := Run(polls, targetPos, direction, false);
      left == run.1 &&
      calls == [ClearError, MoveCall(direction, 100)] + run.0 + (if left then [StopCall] else [])
  {
    if startPos.None? {
      return [], false;
    }
    calls := [ClearError, MoveCall(direction, 100)];
    var log: seq<Call> := [];
    var isOverridden := false;
    left := false;
    var i := 0;
    assert polls[0..] == polls;
    assert log + [] == log;
    while i < |polls|
      invariant 0 <= i <= |polls| && !left
      invariant Run(polls, targetPos, direction, false).0 == log + Run(polls[i..], targetPos, direction, isOverridden).0
      invariant Run(polls, targetPos, direction, false).1 == Run(polls[i..], targetPos, direction, isOverridden).1
      decreases |polls| - i
    {
      var poll := polls[i];
      assert polls[i..][0] == poll && polls[i..][1..] == polls[i + 1..];
      ghost var decision := Decide(poll, targetPos, direction, isOverridden);
      assert log + [] == log;
      var currentPos := poll.position;
      if direction == Protocol.UP {
        if currentPos >= targetPos {
          left := true;
          assert Run(polls, targetPos, direction, false) == (log, true);
          break;
        }
        if poll.errorCode == END_OF_TRAVEL {
          left := true;
          assert Run(polls, targetPos, direction, false) == (log, true);
          break;
        }
        if poll.errorCode == SOFT_LIMIT && !isOverridden {
          log := log + [StopCall];
          if poll.overrideAccepted {
            var overrideDir := if direction == Protocol.UP then Protocol.OVERRIDE_UP else Protocol.OVERRIDE_DOWN;
            log := log + [ClearError, GoOverride, MoveCall(overrideDir, 100)];
            isOverridden := true;
            i := i + 1;
            continue;
          } else {
            left := true;
            assert Run(polls, targetPos, direction, false) == (log, true);
            break;
          }
        }
      } else {
        if currentPos <= targetPos {
          left := true;
          assert Run(polls, targetPos, direction, false) == (log, true);
          break;
        }
        if poll.errorCode == END_OF_TRAVEL {
          left := true;
          assert Run(polls, targetPos, direction, false) == (log, true);
          break;
        }
        if poll.errorCode == SOFT_LIMIT && !isOverridden {
          log := log + [StopCall];
          if poll.overrideAccepted {
            var overrideDir := if direction == Protocol.UP then Protocol.OVERRIDE_UP else Protocol.OVERRIDE_DOWN;
            log := log + [ClearError, GoOverride, MoveCall(overrideDir, 100)];
            isOverridden := true;
            i := i + 1;
            continue;
          } else {
            left := true;
            assert Run(polls, targetPos, direction, false) == (log, true);
            break;
          }
        }
      }
      assert decision == KeepGoing;
      i := i + 1;
    }
    if !left {
      assert polls[i..] == [];
      assert log + [] == log;
    }
    assert Run(polls, targetPos, direction, false) == (log, left);
    calls := calls + log;
    if left {
      calls := calls + [StopCall];
    }
  }

  /** Once overridden, a soft limit is no longer acted on: the loop makes
      no further call before leaving. */
  lemma {:induction false} NoCallsAfterOverride(polls: seq<Poll>, targetPos: int, direction: int)
    ensures Run(polls, targetPos, direction, true).0 == []
  {
    if polls != [] {
      NoCallsAfterOverride(polls[1..], targetPos, direction);
    }
  }

  function CountOverrides(calls: seq<Call>): nat
  {
    if calls == [] then 0 else (if calls[0] == GoOverride then 1 else 0) + CountOverrides(calls[1..])
  }

  /** A limit is overridden at most once per move, and every move the loop
      re-issues uses the override code for its direction at full speed. */
  lemma {:induction false} OverrideAtMostOnce(polls: seq<Poll>, targetPos: int, direction: int)
    ensures CountOverrides(Run(polls, targetPos, direction, false).0) <= 1
    ensures forall c :: c in Run(polls, targetPos, direction, false).0 && c.MoveCall? ==>
      c == MoveCall(OverrideCode(direction), 100)
  {
    if polls != [] {
      match Decide(polls[0], targetPos, direction, false)
      case Overridden =>
        NoCallsAfterOverride(polls[1..], targetPos, direction);
        var calls := [StopCall, ClearError, GoOverride, MoveCall(OverrideCode(direction), 100)];
        assert Run(polls, targetPos, direction, false).0 == calls;
        assert CountOverrides(calls) == 1 by {
          var c3 := [MoveCall(OverrideCode(direction), 100)];
          var c2 := [GoOverride] + c3;
          var c1 := [ClearError] + c2;
          assert c3[1..] == [];
          assert CountOverrides(c3) == 0;
          assert c2[1..] == c3;
          assert CountOverrides(c2) == 1;
          assert c1[1..] == c2;
          assert CountOverrides(c1) == 1;
          assert calls == [StopCall] + c1 && calls[1..] == c1;
        }
      case KeepGoing =>
        OverrideAtMostOnce(polls[1..], targetPos, direction);
      case _ =>
    }
  }

  /** The first poll that reaches the target, or that reports end of
      travel, ends the loop with no further call. */
  lemma ReachedOrEndOfTravelLeaves(polls: seq<Poll>, targetPos: int, direction: int, overridden: bool)
    requires polls != []
    requires (if direction == Protocol.UP then polls[0].position >= targetPos else polls[0].position <= targetPos)
      || polls[0].errorCode == 0x86
    ensures Run(polls, targetPos, direction, overridden) == ([], true)
  {
  }

  // ---------------------------------------------------------------------
  // The U / D commands of main
  // ---------------------------------------------------------------------

  datatype Jog = Up | Down

  /** Lines 202-218: `U` retracts (distance minus delta, direction UP), `D`
      extends; a zero slope is refused before dividing. */
  function JogTarget(jog: Jog, currentDist: real, deltaCm: real, slope: real, intercept: real): Option<(int, int)>
  {
    var targetDist := if jog == Up then currentDist - deltaCm else currentDist + deltaCm;
    var direction := if jog == Up then Protocol.UP else Protocol.DOWN;
    if slope == 0.0 then None
    else Some((Coordinator.TargetPos(targetDist, slope, intercept), direction))
  }

  lemma TruncAtLeast(v: real, a: int)
    requires a as real <= v
    ensures a <= Coordinator.Trunc(v)
  {
    Coordinator.TruncMeaning(v);
  }

  lemma TruncAtMost(v: real, b: int)
    requires v <= b as real
    ensures Coordinator.Trunc(v) <= b
  {
    Coordinator.TruncMeaning(v);
  }

  /** Under the negative slope `monitor_move` assumes, and with the winch
      displaying its calibrated distance, `U` aims at a position no lower
      than the current one and `D` at one no higher, which is what the
      loop's UP and DOWN stop tests expect. */
  lemma JogAgreesWithStopRule(jog: Jog, pos: int, deltaCm: real, slope: real, intercept: real)
    requires slope < 0.0 && 0.0 <= deltaCm
    ensures var r := JogTarget(jog, Coordinator.CalibratedDistance(slope, intercept, pos), deltaCm, slope, intercept);
      r.Some? &&
      (jog == Up ==> r.value.1 == Protocol.UP && r.value.0 >= pos) &&
      (jog == Down ==> r.value.1 == Protocol.DOWN && r.value.0 <= pos)
  {
    var dist := Coordinator.CalibratedDistance(slope, intercept, pos);
    var q := deltaCm / slope;
    assert q <= 0.0;
    assert (dist - deltaCm - intercept) / slope == pos as real - q;
    assert (dist + deltaCm - intercept) / slope == pos as real + q;
    if jog == Up {
      TruncAtLeast(pos as real - q, pos);
    } else {
      TruncAtMost(pos as real + q, pos);
    }
  }

  /** A zero slope is refused for both commands. */
  lemma JogRefusesZeroSlope(jog: Jog, currentDist: real, deltaCm: real, intercept: real)
    ensures JogTarget(jog, currentDist, deltaCm, 0.0, intercept).None?
  {
  }
}
