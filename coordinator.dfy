/** The coordination rules of `CableRobot` in `cable_robot_demo.py`: which
    winch is commanded, in which direction and at what speed for a move;
    the exit rule of the per-winch monitor; how the monitors' results
    decide the move; and the simulated winch's position update.

    The monitors run concurrently in the source. Here one monitor runs over
    a trace of what it observes at each poll, and `MoveTo` receives the
    gathered results (as a function of each command) and whether the shared
    abort event ended up set. */
module Coordinator {
  import opened Wrappers
  import opened Kinematics
  import Protocol

  // ---------------------------------------------------------------------
  // Numeric rules
  // ---------------------------------------------------------------------

  /** Python's `int()` on a float: truncation toward zero. */
  function Trunc(v: real): int
  {
    if v >= 0.0 then v.Floor else -((-v).Floor)
  }

  lemma TruncMeaning(v: real)
    ensures 0.0 <= v ==> 0 <= Trunc(v) && Trunc(v) as real <= v < Trunc(v) as real + 1.0
    ensures v < 0.0 ==> Trunc(v) <= 0 && Trunc(v) as real - 1.0 < v <= Trunc(v) as real
  {
  }

  lemma TruncOfWhole(n: int)
    ensures Trunc(n as real) == n
  {
  }

  /** A value between two whole numbers truncates to a number between them. */
  lemma TruncBetween(v: real, a: int, b: int)
    requires a as real <= v <= b as real
    ensures a <= Trunc(v) <= b
  {
    TruncMeaning(v);
  }

  function AbsReal(v: real): real { if v < 0.0 then -v else v }
  function AbsInt(v: int): int { if v < 0 then -v else v }

  /** Lines 246-253: scale the requested speed by this winch's share of the
      largest length change (unless every change is at most 0.5 cm), then
      floor at 25 and cap at 100. */
  function SyncSpeed(speed: int, delta: real, maxDelta: real): int
  {
    var scaled := if maxDelta > 0.5 then speed as real * (delta / maxDelta) else speed as real;
    var atLeast := Max(scaled, 25.0).Floor;
    if atLeast <= 100 then atLeast else 100
  }

  lemma SyncSpeedBounds(speed: int, delta: real, maxDelta: real)
    ensures 25 <= SyncSpeed(speed, delta, maxDelta) <= 100
  {
  }

  /** A move whose largest change is at most 0.5 cm runs every winch at the
      requested speed, when that speed is already within [25, 100]. */
  lemma SyncSpeedUnscaled(speed: int, delta: real, maxDelta: real)
    requires maxDelta <= 0.5 && 25 <= speed <= 100
    ensures SyncSpeed(speed, delta, maxDelta) == speed
  {
  }

  /** The winch with the largest change runs at the requested speed, clamped. */
  lemma SyncSpeedFarthest(speed: int, maxDelta: real)
    requires maxDelta > 0.5
    ensures SyncSpeed(speed, maxDelta, maxDelta) == (if speed < 25 then 25 else if speed > 100 then 100 else speed)
  {
    assert maxDelta / maxDelta == 1.0;
  }

  /** A winch with a larger change never runs slower. */
  lemma SyncSpeedMonotone(speed: int, d1: real, d2: real, maxDelta: real)
    requires 0 <= speed && 0.0 <= d1 <= d2 && maxDelta > 0.5
    ensures SyncSpeed(speed, d1, maxDelta) <= SyncSpeed(speed, d2, maxDelta)
  {
    var q1, q2 := d1 / maxDelta, d2 / maxDelta;
    assert q1 <= q2 by {
      assert q1 * maxDelta == d1 && q2 * maxDelta == d2;
    }
    var s := speed as real;
    assert s * q1 <= s * q2 by {
      assert s * q2 - s * q1 == s * (q2 - q1);
    }
    var a1, a2 := Max(s * q1, 25.0), Max(s * q2, 25.0);
    assert a1 <= a2;
    assert a1.Floor <= a2.Floor;
  }

  /** The distance a calibrated winch displays at an encoder position
      (line 81; the same linear model `calibrate_units.py` fits). */
  function CalibratedDistance(slope: real, intercept: real, pos: int): real
  {
    slope * pos as real + intercept
  }

  /** Line 237: the encoder target for a cable length under the winch's
      linear calibration `length = slope * pos + intercept`. */
  function TargetPos(length: real, slope: real, intercept: real): int
    requires slope != 0.0
  {
    Trunc((length - intercept) / slope)
  }

  /** `TargetPos` inverts the calibration on lengths that a whole position
      produces (the simulated winch's distance display). */
  lemma TargetPosInvertsCalibration(pos: int, slope: real, intercept: real)
    requires slope != 0.0
    ensures TargetPos(CalibratedDistance(slope, intercept, pos), slope, intercept) == pos
  {
    assert (slope * pos as real + intercept - intercept) / slope == pos as real;
    TruncOfWhole(pos);
  }

  /** Line 241: retract (UP) exactly when the cable must get shorter. */
  function Direction(length: real, currentLength: real): int
  {
    if length < currentLength then Protocol.UP else Protocol.DOWN
  }

  // ---------------------------------------------------------------------
  // move_to: planning
  // ---------------------------------------------------------------------

  /** What `move_to` reads of a client. */
  datatype Winch = Winch(connected: bool, currentDistance: real, slope: real, intercept: real)

  /** One `_monitor_single_move` task as `move_to` launches it. */
  datatype Command = Command(wid: int, targetPos: int, direction: int, speed: int)

  predicate HasAllTargets(targets: map<int, real>)
  {
    forall wid :: 1 <= wid <= 4 ==> wid in targets
  }

  function Delta(targets: map<int, real>, clients: map<int, Winch>, wid: int): real
    requires wid in targets && wid in clients
  {
    AbsReal(targets[wid] - clients[wid].currentDistance)
  }

  /** Lines 212-223 over winches 1..n: the largest change among configured
      winches, starting from 0. */
  function MaxDeltaUpTo(targets: map<int, real>, clients: map<int, Winch>, n: nat): real
    requires HasAllTargets(targets) && n <= 4
  {
    if n == 0 then 0.0
    else
      var m := MaxDeltaUpTo(targets, clients, n - 1);
      if n in clients && Delta(targets, clients, n) > m then Delta(targets, clients, n) else m
  }

  lemma {:induction false} MaxDeltaMeaning(targets: map<int, real>, clients: map<int, Winch>, n: nat)
    requires HasAllTargets(targets) && n <= 4
    ensures 0.0 <= MaxDeltaUpTo(targets, clients, n)
    ensures forall wid :: 1 <= wid <= n && wid in clients ==>
      Delta(targets, clients, wid) <= MaxDeltaUpTo(targets, clients, n)
    ensures MaxDeltaUpTo(targets, clients, n) == 0.0 ||
      exists wid :: 1 <= wid <= n && wid in clients && Delta(targets, clients, wid) == MaxDeltaUpTo(targets, clients, n)
  {
    if n > 0 {
      MaxDeltaMeaning(targets, clients, n - 1);
    }
  }

  function CommandFor(targets: map<int, real>, clients: map<int, Winch>, maxDelta: real, speed: int, wid: int): Command
    requires wid in targets && wid in clients && clients[wid].slope != 0.0
  {
    var c := clients[wid];
    Command(wid, TargetPos(targets[wid], c.slope, c.intercept),
            Direction(targets[wid], c.currentDistance),
            SyncSpeed(speed, Delta(targets, clients, wid), maxDelta))
  }

  predicate Commanded(clients: map<int, Winch>, wid: int)
  {
    wid in clients && clients[wid].slope != 0.0
  }

  /** Lines 232-258 over winches 1..n: one command per configured winch
      whose slope is not zero, in winch order. */
  function CommandsUpTo(targets: map<int, real>, clients: map<int, Winch>, maxDelta: real, speed: int, n: nat): seq<Command>
    requires HasAllTargets(targets) && n <= 4
  {
    if n == 0 then []
    else
      var next := if Commanded(clients, n) then [CommandFor(targets, clients, maxDelta, speed, n)] else [];
      CommandsUpTo(targets, clients, maxDelta, speed, n - 1) + next
  }

  /** A command as planned for winch `wid`: the winch is commanded, its
      speed lies in [25, 100], and it retracts exactly when its cable must
      shorten. */
  predicate PlannedFor(targets: map<int, real>, clients: map<int, Winch>, maxDelta: real, speed: int, c: Command)
    requires HasAllTargets(targets)
  {
    1 <= c.wid <= 4 && Commanded(clients, c.wid) &&
    c == CommandFor(targets, clients, maxDelta, speed, c.wid) &&
    25 <= c.speed <= 100 &&
    (c.direction == Protocol.UP <==> targets[c.wid] < clients[c.wid].currentDistance)
  }

  lemma CommandForIsPlanned(targets: map<int, real>, clients: map<int, Winch>, maxDelta: real, speed: int, wid: int)
    requires HasAllTargets(targets) && 1 <= wid <= 4 && Commanded(clients, wid)
    ensures PlannedFor(targets, clients, maxDelta, speed, CommandFor(targets, clients, maxDelta, speed, wid))
  {
    SyncSpeedBounds(speed, Delta(targets, clients, wid), maxDelta);
  }

  /** One command per configured winch (among 1..n) with a non-zero slope,
      in strictly increasing winch order, each as `PlannedFor` describes. */
  predicate WellPlanned(targets: map<int, real>, clients: map<int, Winch>, maxDelta: real, speed: int, n: nat, cs: seq<Command>)
    requires HasAllTargets(targets)
  {
    (forall i :: 0 <= i < |cs| ==> cs[i].wid <= n && PlannedFor(targets, clients, maxDelta, speed, cs[i])) &&
    (forall i, j :: 0 <= i < j < |cs| ==> cs[i].wid < cs[j].wid) &&
    (forall wid :: 1 <= wid <= n && Commanded(clients, wid) ==> exists i :: 0 <= i < |cs| && cs[i].wid == wid)
  }

  lemma AppendPlanned(targets: map<int, real>, clients: map<int, Winch>, maxDelta: real, speed: int, n: nat,
                      prev: seq<Command>, c: Command)
    requires HasAllTargets(targets) && 1 <= n <= 4
    requires WellPlanned(targets, clients, maxDelta, speed, n - 1, prev)
    requires PlannedFor(targets, clients, maxDelta, speed, c) && c.wid == n
    ensures WellPlanned(targets, clients, maxDelta, speed, n, prev + [c])
  {
    var cs := prev + [c];
    forall wid | 1 <= wid <= n && Commanded(clients, wid)
      ensures exists i :: 0 <= i < |cs| && cs[i].wid == wid
    {
      if wid == n {
        assert cs[|prev|].wid == wid;
      } else {
        var i :| 0 <= i < |prev| && prev[i].wid == wid;
        assert cs[i].wid == wid;
      }
    }
  }

  lemma SkipUnplanned(targets: map<int, real>, clients: map<int, Winch>, maxDelta: real, speed: int, n: nat,
                      prev: seq<Command>)
    requires HasAllTargets(targets) && 1 <= n <= 4
    requires WellPlanned(targets, clients, maxDelta, speed, n - 1, prev)
    requires !Commanded(clients, n)
    ensures WellPlanned(targets, clients, maxDelta, speed, n, prev)
  {
  }

  lemma {:induction false} CommandsMeaning(targets: map<int, real>, clients: map<int, Winch>, maxDelta: real, speed: int, n: nat)
    requires HasAllTargets(targets) && n <= 4
    ensures WellPlanned(targets, clients, maxDelta, speed, n, CommandsUpTo(targets, clients, maxDelta, speed, n))
  {
    if n > 0 {
      CommandsMeaning(targets, clients, maxDelta, speed, n - 1);
      var prev := CommandsUpTo(targets, clients, maxDelta, speed, n - 1);
      if Commanded(clients, n) {
        CommandForIsPlanned(targets, clients, maxDelta, speed, n);
        AppendPlanned(targets, clients, maxDelta, speed, n, prev, CommandFor(targets, clients, maxDelta, speed, n));
      } else {
        assert CommandsUpTo(targets, clients, maxDelta, speed, n) == prev + [];
        assert prev + [] == prev;
        SkipUnplanned(targets, clients, maxDelta, speed, n, prev);
      }
    }
  }

  /** Lines 212-258: the largest change, then one command per active winch. */
  method PlanMove(targets: map<int, real>, clients: map<int, Winch>, speed: int)
    returns (maxDelta: real, commands: seq<Command>)
    requires HasAllTargets(targets)
    ensures maxDelta == MaxDeltaUpTo(targets, clients, 4)
    ensures commands == CommandsUpTo(targets, clients, maxDelta, speed, 4)
  {
    maxDelta := 0.0;
    for wid := 1 to 5
      invariant maxDelta == MaxDeltaUpTo(targets, clients, wid - 1)
    {
      if wid in clients {
        var delta := AbsReal(targets[wid] - clients[wid].currentDistance);
        if delta > maxDelta {
          maxDelta := delta;
        }
      }
    }
    commands := [];
    for wid := 1 to 5
      invariant commands == CommandsUpTo(targets, clients, maxDelta, speed, wid - 1)
    {
      if wid in clients {
        var client := clients[wid];
        if client.slope != 0.0 {
          var targetPos := Trunc((targets[wid] - client.intercept) / client.slope);
          var direction := if targets[wid] < client.currentDistance then Protocol.UP else Protocol.DOWN;
          var finalSpeed := SyncSpeed(speed, AbsReal(targets[wid] - client.currentDistance), maxDelta);
          commands := commands + [Command(wid, targetPos, direction, finalSpeed)];
        }
      }
    }
  }

  // ---------------------------------------------------------------------
  // _monitor_single_move
  // ---------------------------------------------------------------------

  /** What one pass of the monitor loop reads. */
  datatype Poll = Poll(abortSet: bool, connected: bool, errorCode: int, position: Option<int>)

  datatype Step =
    | Continue        // sleep and poll again
    | Break           // leave the loop; the task reports OK
    | RaiseAbort      // set the shared abort event, then leave; OK
    | SoftLimitHit    // return (False, "SOFT_LIMIT")

  const SOFT_LIMIT_ERROR := 0x81
  const DEADBAND := 200

  /** Lines 355-379: abort, then connection, then error 0x81, then a missing
      position, then arrival within the 200-count deadband. */
  function MonitorStep(poll: Poll, targetPos: int): Step
  {
    if poll.abortSet then Break
    else if !poll.connected then RaiseAbort
    else if poll.errorCode == SOFT_LIMIT_ERROR then SoftLimitHit
    else if poll.position.None? then Break
    else if AbsInt(poll.position.value - targetPos) < DEADBAND then Break
    else Continue
  }

  /** The step rule's cases, both ways. */
  lemma MonitorStepMeaning(poll: Poll, targetPos: int)
    ensures MonitorStep(poll, targetPos) == RaiseAbort <==> !poll.abortSet && !poll.connected
    ensures MonitorStep(poll, targetPos) == SoftLimitHit <==>
      !poll.abortSet && poll.connected && poll.errorCode == 0x81
    ensures MonitorStep(poll, targetPos) == Continue <==>
      !poll.abortSet && poll.connected && poll.errorCode != 0x81 && poll.position.Some? &&
      (poll.position.value <= targetPos - 200 || poll.position.value >= targetPos + 200)
  {
  }

  /** The index of the first poll that ends the loop, or `|polls|`. */
  function FirstExit(polls: seq<Poll>, targetPos: int): (k: nat)
    ensures k <= |polls|
    ensures forall j :: 0 <= j < k ==> MonitorStep(polls[j], targetPos) == Continue
    ensures k < |polls| ==> MonitorStep(polls[k], targetPos) != Continue
  {
    if polls == [] then 0
    else if MonitorStep(polls[0], targetPos) != Continue then 0
    else 1 + FirstExit(polls[1..], targetPos)
  }

  /** What a monitor task reports and what it sends its winch. */
  datatype MonitorResult = MonitorOk | SoftLimit | Failed(message: string)
  datatype Action = SimulateTo(targetPos: int, speed: int) | MoveCommand(direction: int, speed: int) | StopCommand

  function ResultOf(step: Step): MonitorResult
  {
    if step == SoftLimitHit then SoftLimit else MonitorOk
  }

  // ---------------------------------------------------------------------
  // Result aggregation
  // ---------------------------------------------------------------------

  /** The ids of the tasks that reported a soft limit, in task order. */
  function SoftLimitIds(results: seq<MonitorResult>, wids: seq<int>): seq<int>
    requires |results| == |wids|
  {
    if results == [] then []
    else (if results[0] == SoftLimit then [wids[0]] else []) + SoftLimitIds(results[1..], wids[1..])
  }

  lemma {:induction false} SoftLimitIdsMeaning(results: seq<MonitorResult>, wids: seq<int>)
    requires |results| == |wids|
    ensures SoftLimitIds(results, wids) == [] <==> forall i :: 0 <= i < |results| ==> results[i] != SoftLimit
    ensures forall x :: x in SoftLimitIds(results, wids) <==>
      exists i :: 0 <= i < |results| && results[i] == SoftLimit && wids[i] == x
    ensures |SoftLimitIds(results, wids)| <= |wids|
  {
    if results != [] {
      SoftLimitIdsMeaning(results[1..], wids[1..]);
      var rest := SoftLimitIds(results[1..], wids[1..]);
      forall x
        ensures x in SoftLimitIds(results, wids) <==>
          exists i :: 0 <= i < |results| && results[i] == SoftLimit && wids[i] == x
      {
        if x in rest {
          var i :| 0 <= i < |results[1..]| && results[1..][i] == SoftLimit && wids[1..][i] == x;
          assert results[i + 1] == SoftLimit && wids[i + 1] == x;
        }
        if exists i :: 0 <= i < |results| && results[i] == SoftLimit && wids[i] == x {
          var i :| 0 <= i < |results| && results[i] == SoftLimit && wids[i] == x;
          if i > 0 {
            assert results[1..][i - 1] == SoftLimit && wids[1..][i - 1] == x;
          }
        }
      }
      if forall i :: 0 <= i < |results| ==> results[i] != SoftLimit {
        assert forall i :: 0 <= i < |results[1..]| ==> results[1..][i] == results[i + 1];
      }
    }
  }

  /** How `move_to` ends. Both rejections return a bare `False` in the
      source; `Finished` is the `(committed, soft-limit ids)` tuple. */
  datatype MoveOutcome =
    | RejectedUnsafe(verdict: Verdict)
    | RejectedDisconnected
    | Finished(committed: bool, softLimitIds: seq<int>)

  /** Lines 263-278. */
  function Aggregate(results: seq<MonitorResult>, wids: seq<int>, abortSet: bool): MoveOutcome
    requires |results| == |wids|
  {
    if abortSet then Finished(false, [])
    else
      var ids := SoftLimitIds(results, wids);
      if ids != [] then Finished(false, ids) else Finished(true, [])
  }

  /** A move commits exactly when no abort was raised and no task hit a soft
      limit; a task that failed with an exception does not stop the commit. */
  lemma AggregateMeaning(results: seq<MonitorResult>, wids: seq<int>, abortSet: bool)
    requires |results| == |wids|
    ensures Aggregate(results, wids, abortSet).Finished?
    ensures Aggregate(results, wids, abortSet).committed <==>
      !abortSet && forall i :: 0 <= i < |results| ==> results[i] != SoftLimit
    ensures Aggregate(results, wids, abortSet).committed ==> Aggregate(results, wids, abortSet).softLimitIds == []
    ensures abortSet ==> Aggregate(results, wids, abortSet) == Finished(false, [])
    ensures !abortSet ==> Aggregate(results, wids, abortSet).softLimitIds == SoftLimitIds(results, wids)
  {
    SoftLimitIdsMeaning(results, wids);
  }

  function WidsOf(commands: seq<Command>): (r: seq<int>)
    ensures |r| == |commands| && forall i :: 0 <= i < |r| ==> r[i] == commands[i].wid
  {
    if commands == [] then [] else [commands[0].wid] + WidsOf(commands[1..])
  }

  function ResultsOf(commands: seq<Command>, monitor: Command -> MonitorResult): (r: seq<MonitorResult>)
    ensures |r| == |commands| && forall i :: 0 <= i < |r| ==> r[i] == monitor(commands[i])
  {
    if commands == [] then [] else [monitor(commands[0])] + ResultsOf(commands[1..], monitor)
  }

  predicate AllConnected(clients: map<int, Winch>)
  {
    forall wid :: wid in clients ==> clients[wid].connected
  }

  /** Only winches with a pulley are configured (`initialize_winches`
      skips any other id). */
  predicate OnAnchors(clients: map<int, Winch>)
  {
    forall wid :: wid in clients ==> 1 <= wid <= 4
  }

  /** Lines 202-205: every configured winch must be connected. */
  method CheckConnected(clients: map<int, Winch>) returns (ok: bool)
    requires OnAnchors(clients)
    ensures ok <==> AllConnected(clients)
  {
    for wid := 1 to 5
      invariant forall w :: w in clients && w < wid ==> clients[w].connected
    {
      if wid in clients && !clients[wid].connected {
        return false;
      }
    }
    return true;
  }

  /** Lines 263-266: the ids of the tasks that reported a soft limit. */
  method CollectSoftLimitIds(results: seq<MonitorResult>, activeWids: seq<int>) returns (ids: seq<int>)
    requires |results| == |activeWids|
    ensures ids == SoftLimitIds(results, activeWids)
  {
    ids := [];
    for i := 0 to |results|
      invariant ids + SoftLimitIds(results[i..], activeWids[i..]) == SoftLimitIds(results, activeWids)
    {
      assert results[i..][1..] == results[i + 1..] && activeWids[i..][1..] == activeWids[i + 1..];
      if results[i] == SoftLimit {
        ids := ids + [activeWids[i]];
      }
    }
    assert results[|results|..] == [];
  }

  // ---------------------------------------------------------------------
  // The robot
  // ---------------------------------------------------------------------

  class CableRobot {
    const geometry: Geometry
    const simMode: bool
    /** `last_target`; None until a move commits. */
    var lastTarget: Option<Point>

    constructor (geometry: Geometry, simMode: bool)
      ensures this.geometry == geometry && this.simMode == simMode && lastTarget == None
    {
      this.geometry := geometry;
      this.simMode := simMode;
      lastTarget := None;
    }

    /** `_monitor_single_move` over the polls it observes: start the winch,
        poll until the exit rule fires, then (in hardware mode) stop. If
        the observations run out first the task is still polling: no
        result, no stop. */
    method MonitorSingleMove(polls: seq<Poll>, targetPos: int, direction: int, speed: int)
      returns (result: Option<MonitorResult>, raisedAbort: bool, actions: seq<Action>)
      ensures var k := FirstExit(polls, targetPos);
        (result.None? <==> k == |polls|) &&
        (result.Some? ==> result.value == ResultOf(MonitorStep(polls[k], targetPos))) &&
        (raisedAbort <==> k < |polls| && MonitorStep(polls[k], targetPos) == RaiseAbort)
      ensures actions ==
        (if simMode then [SimulateTo(targetPos, speed)] else [MoveCommand(direction, speed)]) +
        (if result.Some? && !simMode then [StopCommand] else [])
    {
      actions := if simMode then [SimulateTo(targetPos, speed)] else [MoveCommand(direction, speed)];
      raisedAbort := false;
      result := None;
      var i := 0;
      while i < |polls|
        invariant 0 <= i <= |polls| && i <= FirstExit(polls, targetPos)
        invariant result.None? && !raisedAbort
      {
        var poll := polls[i];
        if poll.abortSet {
          result := Some(MonitorOk);
          break;
        }
        if !poll.connected {
          raisedAbort := true;
          result := Some(MonitorOk);
          break;
        }
        if poll.errorCode == SOFT_LIMIT_ERROR {
          result := Some(SoftLimit);
          break;
        }
        if poll.position.None? {
          result := Some(MonitorOk);
          break;
        }
        if AbsInt(poll.position.value - targetPos) < DEADBAND {
          result := Some(MonitorOk);
          break;
        }
        i := i + 1;
      }
      if result.Some? && !simMode {
        actions := actions + [StopCommand];
      }
    }

    /** `move_to`: refuse an unsafe point, then refuse if any winch is
        disconnected; otherwise plan, collect the tasks' results and
        commit the target only on a clean finish. */
    method MoveTo(p: Point, speed: int, clients: map<int, Winch>, sqrt: real -> real,
                  monitor: Command -> MonitorResult, abortSet: bool)
      returns (outcome: MoveOutcome, commands: seq<Command>)
      requires OnAnchors(clients)
      modifies this`lastTarget
      ensures IsSafe(geometry, p) != Safe ==> outcome == RejectedUnsafe(IsSafe(geometry, p)) && commands == []
      ensures IsSafe(geometry, p) == Safe && !AllConnected(clients) ==> outcome == RejectedDisconnected && commands == []
      ensures IsSafe(geometry, p) == Safe && AllConnected(clients) ==>
        var targets := InverseKinematics(geometry, p, sqrt);
        commands == CommandsUpTo(targets, clients, MaxDeltaUpTo(targets, clients, 4), speed, 4) &&
        outcome == Aggregate(ResultsOf(commands, monitor), WidsOf(commands), abortSet)
      ensures lastTarget == (if outcome == Finished(true, []) then Some(p) else old(lastTarget))
    {
      commands := [];
      var verdict := IsSafe(geometry, p);
      if verdict != Safe {
        return RejectedUnsafe(verdict), [];
      }
      var connected := CheckConnected(clients);
      if !connected {
        return RejectedDisconnected, [];
      }
      var targets := InverseKinematics(geometry, p, sqrt);
      var maxDelta;
      maxDelta, commands := PlanMove(targets, clients, speed);
      var results := ResultsOf(commands, monitor);
      var activeWids := WidsOf(commands);
      var softLimitHitWids := CollectSoftLimitIds(results, activeWids);
      if abortSet {
        return Finished(false, []), commands;
      }
      if softLimitHitWids != [] {
        return Finished(false, softLimitHitWids), commands;
      }
      lastTarget := Some(p);
      outcome := Finished(true, []);
    }
  }

  // ---------------------------------------------------------------------
  // SimulatedLifterClient.sim_update_pos
  // ---------------------------------------------------------------------

  const SIM_STEPS := 20

  /** The position after step `i` (1-based) of the linear interpolation. */
  function Interpolated(start: int, target: int, i: int): int
  {
    Trunc(start as real + ((target - start) * i) as real / SIM_STEPS as real)
  }

  /** The fraction of the travel covered after step `i` lies between no
      travel and the whole travel. */
  lemma StepFraction(d: int, i: int)
    requires 0 <= i <= SIM_STEPS
    ensures d >= 0 ==> 0.0 <= (d * i) as real / SIM_STEPS as real <= d as real
    ensures d <= 0 ==> d as real <= (d * i) as real / SIM_STEPS as real <= 0.0
  {
    if d >= 0 {
      assert 0 <= d * i <= d * 20;
    } else {
      assert d * 20 <= d * i <= 0;
    }
  }

  /** Every interpolated position lies between the start and the target. */
  lemma InterpolationBetween(start: int, target: int, i: int)
    requires 0 <= i <= SIM_STEPS
    ensures start <= target ==> start <= Interpolated(start, target, i) <= target
    ensures target <= start ==> target <= Interpolated(start, target, i) <= start
  {
    var d := target - start;
    StepFraction(d, i);
    var f := (d * i) as real / SIM_STEPS as real;
    if d >= 0 {
      TruncBetween(start as real + f, start, target);
    } else {
      TruncBetween(start as real + f, target, start);
    }
  }

  /** The last interpolated position is the target. */
  lemma InterpolationEndsAtTarget(start: int, target: int)
    ensures Interpolated(start, target, SIM_STEPS) == target
  {
    var d := target - start;
    assert (d * 20) as real / 20.0 == d as real;
    assert Interpolated(start, target, SIM_STEPS) == Trunc(target as real);
    TruncOfWhole(target);
  }

  class SimulatedLifterClient {
    var isConnected: bool
    var lastKnownPosition: int
    var calSlope: real
    var calIntercept: real
    var currentDistance: real

    constructor ()
      ensures !isConnected && lastKnownPosition == 0
      ensures calSlope == 1.0 && calIntercept == 0.0 && currentDistance == 0.0
    {
      isConnected := false;
      lastKnownPosition := 0;
      calSlope := 1.0;
      calIntercept := 0.0;
      currentDistance := 0.0;
    }

    /** `sim_update_pos`: twenty interpolation steps from the current
        position to the target, refreshing the distance display after each;
        a disconnected client does not move. */
    method SimUpdatePos(targetPos: int, speed: int)
      modifies this`lastKnownPosition, this`currentDistance
      ensures !isConnected ==> lastKnownPosition == old(lastKnownPosition) && currentDistance == old(currentDistance)
      ensures isConnected ==> lastKnownPosition == targetPos
      ensures isConnected ==> currentDistance == CalibratedDistance(calSlope, calIntercept, targetPos)
    {
      var start := lastKnownPosition;
      var distTicks := targetPos - start;
      var steps := SIM_STEPS;
      for i := 0 to steps
        invariant isConnected ==> i == 0 || lastKnownPosition == Interpolated(start, targetPos, i)
        invariant isConnected ==> i == 0 || currentDistance == CalibratedDistance(calSlope, calIntercept, lastKnownPosition)
        invariant !isConnected ==> lastKnownPosition == old(lastKnownPosition) && currentDistance == old(currentDistance)
      {
        if !isConnected {
          break;
        }
        lastKnownPosition := Trunc(start as real + (distTicks * (i + 1)) as real / steps as real);
        currentDistance := CalibratedDistance(calSlope, calIntercept, lastKnownPosition);
      }
      if isConnected {
        InterpolationEndsAtTarget(start, targetPos);
      }
    }
  }
}
