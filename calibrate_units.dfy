/** The calibration script `calibrate_units.py`: the end-of-travel and
    stall watchdog of `move_until_stop`, and the two-point linear fit that
    its `main` computes from the operator's measurements.

    The winch is observed through a trace of polls (the error code and the
    position the loop reads each pass). */
module CalibrateUnits {
  import opened Wrappers

  datatype Poll = Poll(errorCode: int, position: int)
  datatype Call = MoveCall(code: int, speed: int) | StopCall

  const END_OF_TRAVEL := 0x86
  /** The loop leaves once more than this many passes in a row saw the
      position unchanged. */
  const STALL_LIMIT := 60

  /** The position the watchdog compares poll `i` against: the one seen on
      the pass before, or the start position. */
  function Before(polls: seq<Poll>, start: int, i: int): int
    requires 0 <= i <= |polls|
  {
    if i == 0 then start else polls[i - 1].position
  }

  /** `stalled_count` after the first `n` passes. */
  function Stalled(polls: seq<Poll>, start: int, n: int): nat
    requires 0 <= n <= |polls|
  {
    if n == 0 then 0
    else if polls[n - 1].position == Before(polls, start, n - 1) then Stalled(polls, start, n - 1) + 1
    else 0
  }

  /** Pass `k` leaves the loop: end of travel, or the stall count exceeds 60. */
  predicate ExitsAt(polls: seq<Poll>, start: int, k: int)
    requires 0 <= k < |polls|
  {
    polls[k].errorCode == END_OF_TRAVEL || Stalled(polls, start, k + 1) > STALL_LIMIT
  }

  /** `move_until_stop`: start at full speed, poll until end of travel or a
      stall, then stop. */
  method MoveUntilStop(direction: int, start: int, polls: seq<Poll>) returns (calls: seq<Call>, exitPass: Option<nat>)
    ensures exitPass.Some? ==>
      exitPass.value < |polls| && ExitsAt(polls, start, exitPass.value) &&
      forall j :: 0 <= j < exitPass.value ==> !ExitsAt(polls, start, j)
    ensures exitPass.None? ==> forall j :: 0 <= j < |polls| ==> !ExitsAt(polls, start, j)
    ensures calls == [MoveCall(direction, 100)] + (if exitPass.Some? then [StopCall] else [])
  {
    calls := [MoveCall(direction, 100)];
    var lastPos := start;
    var stalledCount := 0;
    exitPass := None;
    var i := 0;
    while i < |polls|
      invariant 0 <= i <= |polls|
      invariant lastPos == Before(polls, start, i) && stalledCount == Stalled(polls, start, i)
      invariant forall j :: 0 <= j < i ==> !ExitsAt(polls, start, j)
    {
      if polls[i].errorCode == END_OF_TRAVEL {
        exitPass := Some(i);
        break;
      }
      var currentPos := polls[i].position;
      if currentPos == lastPos {
        stalledCount := stalledCount + 1;
        if stalledCount > STALL_LIMIT {
          exitPass := Some(i);
          break;
        }
      } else {
        stalledCount := 0;
        lastPos := currentPos;
      }
      i := i + 1;
    }
    calls := calls + (if exitPass.Some? then [StopCall] else []);
  }

  /** The stall count after `n` passes is the length of the run of passes
      that all saw the position from just before the run. */
  lemma {:induction false} StalledMeaning(polls: seq<Poll>, start: int, n: int)
    requires 0 <= n <= |polls|
    ensures Stalled(polls, start, n) <= n
    ensures forall j :: n - Stalled(polls, start, n) <= j < n ==>
      polls[j].position == Before(polls, start, n - Stalled(polls, start, n))
  {
    if n > 0 && polls[n - 1].position == Before(polls, start, n - 1) {
      StalledMeaning(polls, start, n - 1);
    }
  }

  /** A stall exit happens only after 61 consecutive passes saw one
      unchanged position. */
  lemma StallExitMeaning(polls: seq<Poll>, start: int, k: int)
    requires 0 <= k < |polls| && ExitsAt(polls, start, k) && polls[k].errorCode != END_OF_TRAVEL
    requires forall j :: 0 <= j < k ==> !ExitsAt(polls, start, j)
    ensures k >= STALL_LIMIT
    ensures forall j :: k - STALL_LIMIT <= j <= k ==> polls[j].position == Before(polls, start, k - STALL_LIMIT)
  {
    if k > 0 {
      assert !ExitsAt(polls, start, k - 1);
    }
    assert Stalled(polls, start, k + 1) == STALL_LIMIT + 1;
    StalledMeaning(polls, start, k + 1);
  }

  /** While the position stays at the start and no end of travel is
      reported, the count is the number of passes. */
  lemma {:induction false} StalledCountsRun(polls: seq<Poll>, start: int, n: int)
    requires 0 <= n <= |polls|
    requires forall j :: 0 <= j < n ==> polls[j].position == start
    ensures Stalled(polls, start, n) == n
  {
    if n > 0 {
      StalledCountsRun(polls, start, n - 1);
    }
  }

  /** And conversely: 61 passes at the start position, without end of
      travel, end the loop on the 61st. */
  lemma StallDetected(polls: seq<Poll>, start: int)
    requires |polls| > STALL_LIMIT
    requires forall j :: 0 <= j <= STALL_LIMIT ==> polls[j].position == start && polls[j].errorCode != END_OF_TRAVEL
    ensures ExitsAt(polls, start, STALL_LIMIT)
    ensures forall j :: 0 <= j < STALL_LIMIT ==> !ExitsAt(polls, start, j)
  {
    StalledCountsRun(polls, start, STALL_LIMIT + 1);
    forall j | 0 <= j < STALL_LIMIT
      ensures !ExitsAt(polls, start, j)
    {
      StalledCountsRun(polls, start, j + 1);
    }
  }

  // ---------------------------------------------------------------------
  // The fit in main
  // ---------------------------------------------------------------------

  /** Why the script gives up. The first and last print an error and
      return; the middle one is the `ZeroDivisionError` of line 108, which
      reaches the script's outer handler. */
  datatype FitError = ZeroDistanceDelta | ZeroPositionDelta | DegeneratePoints

  datatype Calibration = Calibration(unitsPerCm: real, cmPerUnit: real, slope: real, intercept: real)

  function AbsInt(v: int): int { if v < 0 then -v else v }
  function AbsReal(v: real): real { if v < 0.0 then -v else v }

  /** Lines 100-139: the scale from the first two readings, then the line
      through the mean of the two top readings and the bottom reading. */
  function Fit(pos1: int, dist1: real, pos2: int, dist2: real, pos3: int, dist3: real): Result<Calibration, FitError>
  {
    var deltaPos := AbsInt(pos2 - pos1);
    var deltaDist := AbsReal(dist2 - dist1);
    if deltaDist == 0.0 then Err(ZeroDistanceDelta)
    else if deltaPos == 0 then Err(ZeroPositionDelta)
    else
      var posAvgTop := (pos1 + pos3) as real / 2.0;
      var distAvgTop := (dist1 + dist3) / 2.0;
      if pos2 as real - posAvgTop == 0.0 then Err(DegeneratePoints)
      else
        var slope := (dist2 - distAvgTop) / (pos2 as real - posAvgTop);
        Ok(Calibration(deltaPos as real / deltaDist, deltaDist / deltaPos as real, slope, distAvgTop - slope * posAvgTop))
  }

  /** The error cases, in the order the script meets them. */
  lemma FitErrors(pos1: int, dist1: real, pos2: int, dist2: real, pos3: int, dist3: real)
    ensures Fit(pos1, dist1, pos2, dist2, pos3, dist3) == Err(ZeroDistanceDelta) <==> dist1 == dist2
    ensures Fit(pos1, dist1, pos2, dist2, pos3, dist3) == Err(ZeroPositionDelta) <==> dist1 != dist2 && pos1 == pos2
    ensures Fit(pos1, dist1, pos2, dist2, pos3, dist3) == Err(DegeneratePoints) <==>
      dist1 != dist2 && pos1 != pos2 && 2 * pos2 == pos1 + pos3
  {
  }

  /** A successful fit passes through the averaged top point and the bottom
      point, and its two scale figures are reciprocal. */
  lemma FitThroughPoints(pos1: int, dist1: real, pos2: int, dist2: real, pos3: int, dist3: real)
    requires Fit(pos1, dist1, pos2, dist2, pos3, dist3).Ok?
    ensures var c := Fit(pos1, dist1, pos2, dist2, pos3, dist3).value;
      c.slope * ((pos1 + pos3) as real / 2.0) + c.intercept == (dist1 + dist3) / 2.0 &&
      c.slope * pos2 as real + c.intercept == dist2 &&
      c.unitsPerCm * c.cmPerUnit == 1.0
  {
    var c := Fit(pos1, dist1, pos2, dist2, pos3, dist3).value;
    var x1 := (pos1 + pos3) as real / 2.0;
    var y1 := (dist1 + dist3) / 2.0;
    var dx := pos2 as real - x1;
    assert c.slope == (dist2 - y1) / dx;
    assert c.slope * dx == dist2 - y1;
    assert c.slope * pos2 as real + c.intercept == c.slope * dx + y1;
    var dp := AbsInt(pos2 - pos1) as real;
    var dd := AbsReal(dist2 - dist1);
    assert (dp / dd) * (dd / dp) == 1.0;
  }
}
