/** The geometry of `CableRobot` in `cable_robot_demo.py`: four winches whose
    pulleys sit at the ceiling corners of a box room; inverse kinematics, the
    inverted-pyramid safety predicate, the bisection toward the safety
    boundary and the maximal safe height above a floor point.

    Arithmetic is over `real`. The square root is either avoided (the
    steepness test compares squares) or taken as a function parameter, and
    `tan(radians(safe_angle_deg))` is the field `maxTan`. */
module Kinematics {
  import opened Wrappers

  datatype Point = Point(x: real, y: real, z: real)

  /** Room dimensions and safety settings (all in cm), with the tangent of
      the safe cable angle. */
  datatype Geometry = Geometry(width: real, length: real, height: real,
                               floorMargin: real, ceilingMargin: real, maxTan: real)

  /** The configuration defaults: a 400 x 400 x 300 room, 20 cm floor and
      50 cm ceiling margin; `maxTan` is tan(60 degrees) in the default. */
  function DefaultGeometry(maxTan: real): (g: Geometry)
    ensures g.width == 400.0 && g.length == 400.0 && g.height == 300.0
    ensures g.floorMargin == 20.0 && g.ceilingMargin == 50.0 && g.maxTan == maxTan
  {
    Geometry(400.0, 400.0, 300.0, 20.0, 50.0, maxTan)
  }

  predicate IsWinch(wid: int) { 1 <= wid <= 4 }

  /** Pulley positions: 1 front-left, 2 front-right, 3 back-right,
      4 back-left, all at ceiling height. */
  function Anchor(g: Geometry, wid: int): Point
    requires IsWinch(wid)
  {
    match wid
    case 1 => Point(0.0, 0.0, g.height)
    case 2 => Point(g.width, 0.0, g.height)
    case 3 => Point(g.width, g.length, g.height)
    case 4 => Point(0.0, g.length, g.height)
  }

  function Sq(v: real): real { v * v }

  lemma SqNonNegative(v: real)
    ensures 0.0 <= Sq(v)
  {
    if v < 0.0 {
      assert Sq(v) == (-v) * (-v);
    }
  }

  lemma HorizSqNonNegative(a: Point, p: Point)
    ensures 0.0 <= HorizSq(a, p)
  {
    SqNonNegative(p.x - a.x);
    SqNonNegative(p.y - a.y);
  }

  /** Squared distance in the floor plane. */
  function HorizSq(a: Point, p: Point): real
  {
    Sq(p.x - a.x) + Sq(p.y - a.y)
  }

  /** Squared distance in space. */
  function DistSq(a: Point, p: Point): real
  {
    HorizSq(a, p) + Sq(p.z - a.z)
  }

  /** What a square-root function must return, for the lemmas that need it. */
  ghost predicate IsSqrt(sqrt: real -> real)
  {
    forall v: real {:trigger sqrt(v)} :: 0.0 <= v ==> 0.0 <= sqrt(v) && sqrt(v) * sqrt(v) == v
  }

  // ---------------------------------------------------------------------
  // inverse_kinematics
  // ---------------------------------------------------------------------

  /** `inverse_kinematics`: a cable length for exactly the winches 1..4. */
  function InverseKinematics(g: Geometry, p: Point, sqrt: real -> real): (r: map<int, real>)
    ensures r.Keys == {1, 2, 3, 4}
    ensures forall wid :: wid in r ==> IsWinch(wid) && r[wid] == sqrt(DistSq(Anchor(g, wid), p))
  {
    map[1 := sqrt(DistSq(Anchor(g, 1), p)),
        2 := sqrt(DistSq(Anchor(g, 2), p)),
        3 := sqrt(DistSq(Anchor(g, 3), p)),
        4 := sqrt(DistSq(Anchor(g, 4), p))]
  }

  /** With a true square root every length is the distance to its pulley,
      and no cable is shorter than the vertical drop from the ceiling. */
  lemma InverseKinematicsAreDistances(g: Geometry, p: Point, sqrt: real -> real, wid: int)
    requires IsSqrt(sqrt) && IsWinch(wid)
    ensures var len := InverseKinematics(g, p, sqrt)[wid];
      0.0 <= len && len * len == DistSq(Anchor(g, wid), p) && len * len >= Sq(g.height - p.z)
  {
    var a := Anchor(g, wid);
    HorizSqNonNegative(a, p);
    SqNonNegative(p.z - a.z);
    assert Sq(p.z - a.z) == Sq(g.height - p.z);
  }

  /** Above the room's centre all four cables are equally long. */
  lemma CentreIsSymmetric(g: Geometry, z: real, sqrt: real -> real)
    ensures var r := InverseKinematics(g, Point(g.width / 2.0, g.length / 2.0, z), sqrt);
      r[1] == r[2] == r[3] == r[4]
  {
    var p := Point(g.width / 2.0, g.length / 2.0, z);
    var d := Sq(g.width / 2.0) + Sq(g.length / 2.0) + Sq(z - g.height);
    assert Sq(g.width / 2.0 - g.width) == Sq(g.width / 2.0);
    assert Sq(g.length / 2.0 - g.length) == Sq(g.length / 2.0);
    assert DistSq(Anchor(g, 1), p) == d;
    assert DistSq(Anchor(g, 2), p) == d;
    assert DistSq(Anchor(g, 3), p) == d;
    assert DistSq(Anchor(g, 4), p) == d;
  }

  /** The repository's test point: (200, 200, 150) in the default room gives
      sqrt(102500) for every cable. */
  lemma InverseKinematicsTestVector(maxTan: real, sqrt: real -> real)
    ensures forall wid :: wid in InverseKinematics(DefaultGeometry(maxTan), Point(200.0, 200.0, 150.0), sqrt) ==>
      InverseKinematics(DefaultGeometry(maxTan), Point(200.0, 200.0, 150.0), sqrt)[wid] == sqrt(102500.0)
  {
    var g := DefaultGeometry(maxTan);
    var p := Point(200.0, 200.0, 150.0);
    assert DistSq(Anchor(g, 1), p) == 102500.0;
    assert DistSq(Anchor(g, 2), p) == 102500.0;
    assert DistSq(Anchor(g, 3), p) == 102500.0;
    assert DistSq(Anchor(g, 4), p) == 102500.0;
  }

  // ---------------------------------------------------------------------
  // is_safe
  // ---------------------------------------------------------------------

  /** The verdict of `is_safe`: `Safe` is `(True, "Safe")`, every other value
      is `False` with the corresponding reason. */
  datatype Verdict =
    | Safe
    | XOutOfBounds
    | YOutOfBounds
    | ZOutOfBounds
    | Singularity
    | TooSteep(cable: int)

  predicate InX(g: Geometry, p: Point) { 0.0 <= p.x <= g.width }
  predicate InY(g: Geometry, p: Point) { 0.0 <= p.y <= g.length }
  predicate InZ(g: Geometry, p: Point) { g.floorMargin <= p.z <= g.height - g.ceilingMargin }

  /** Vertical distance from the point up to the ceiling. */
  function Drop(g: Geometry, p: Point): real { g.height - p.z }

  /** `horiz_dist / h_dist > max_tan`, without the square root; equivalent
      when `h_dist > 0` (see `SteepTestIsExact`). */
  predicate Steep(g: Geometry, p: Point, wid: int)
    requires IsWinch(wid)
  {
    g.maxTan < 0.0 || HorizSq(Anchor(g, wid), p) > Sq(g.maxTan * Drop(g, p))
  }

  /** The anchor loop from `wid` on: the first steep cable, else `Safe`. */
  function FirstSteep(g: Geometry, p: Point, wid: int): Verdict
    requires 1 <= wid <= 5
    decreases 5 - wid
  {
    if wid == 5 then Safe
    else if Steep(g, p, wid) then TooSteep(wid)
    else FirstSteep(g, p, wid + 1)
  }

  function IsSafe(g: Geometry, p: Point): Verdict
  {
    if !InX(g, p) then XOutOfBounds
    else if !InY(g, p) then YOutOfBounds
    else if !InZ(g, p) then ZOutOfBounds
    else if Drop(g, p) <= 0.1 then Singularity
    else FirstSteep(g, p, 1)
  }

  lemma {:induction false} FirstSteepMeaning(g: Geometry, p: Point, wid: int)
    requires 1 <= wid <= 5
    ensures FirstSteep(g, p, wid).Safe? || FirstSteep(g, p, wid).TooSteep?
    ensures FirstSteep(g, p, wid).Safe? <==> forall j :: wid <= j <= 4 ==> !Steep(g, p, j)
    ensures FirstSteep(g, p, wid).TooSteep? ==>
      var c := FirstSteep(g, p, wid).cable;
      wid <= c <= 4 && Steep(g, p, c) && forall j :: wid <= j < c ==> !Steep(g, p, j)
    decreases 5 - wid
  {
    if wid < 5 && !Steep(g, p, wid) {
      FirstSteepMeaning(g, p, wid + 1);
    }
  }

  /** The checks run in order with the first failure reported: X, then Y,
      then Z, then the singularity, then cables 1..4; `Safe` exactly when
      every check passes. */
  lemma IsSafeMeaning(g: Geometry, p: Point)
    ensures IsSafe(g, p) == XOutOfBounds <==> !InX(g, p)
    ensures IsSafe(g, p) == YOutOfBounds <==> InX(g, p) && !InY(g, p)
    ensures IsSafe(g, p) == ZOutOfBounds <==> InX(g, p) && InY(g, p) && !InZ(g, p)
    ensures IsSafe(g, p) == Singularity <==> InX(g, p) && InY(g, p) && InZ(g, p) && Drop(g, p) <= 0.1
    ensures IsSafe(g, p).TooSteep? ==>
      var c := IsSafe(g, p).cable;
      InX(g, p) && InY(g, p) && InZ(g, p) && Drop(g, p) > 0.1 &&
      IsWinch(c) && Steep(g, p, c) && forall j :: 1 <= j < c ==> !Steep(g, p, j)
    ensures IsSafe(g, p) == Safe <==>
      InX(g, p) && InY(g, p) && InZ(g, p) && Drop(g, p) > 0.1 &&
      forall j :: 1 <= j <= 4 ==> !Steep(g, p, j)
  {
    FirstSteepMeaning(g, p, 1);
  }

  lemma SquareMonotone(a: real, b: real)
    requires 0.0 <= a <= b
    ensures a * a <= b * b
  {
    assert a * a <= a * b;
    assert a * b <= b * b;
  }

  lemma SquareStrictMonotone(a: real, b: real)
    requires 0.0 <= a < b
    ensures a * a < b * b
  {
    var e := b - a;
    assert b * b == a * a + 2.0 * a * e + e * e;
    assert 0.0 <= a * e;
    assert 0.0 < e * e;
  }

  /** The square-free test agrees with `horiz_dist / h_dist > max_tan` for the
      true horizontal distance `d` whenever the drop `h` is positive. */
  lemma SteepTestIsExact(d: real, h: real, maxTan: real)
    requires 0.0 <= d && 0.0 < h
    ensures d / h > maxTan <==> (maxTan < 0.0 || d * d > Sq(maxTan * h))
  {
    var m := maxTan * h;
    assert d / h > maxTan <==> d > m;
    if maxTan < 0.0 {
      assert m < 0.0;
    } else {
      assert 0.0 <= m;
      if d > m {
        SquareStrictMonotone(m, d);
      } else {
        SquareMonotone(d, m);
      }
    }
  }

  /** With a ceiling margin above 0.1 the singularity reason is unreachable:
      the Z check already keeps the point far enough below the ceiling. */
  lemma NoSingularityBelowMargin(g: Geometry, p: Point)
    requires g.ceilingMargin > 0.1
    ensures IsSafe(g, p) != Singularity
  {
    IsSafeMeaning(g, p);
  }

  lemma TangentSquare(maxTan: real)
    requires 1.73 <= maxTan <= 1.74
    ensures 2.9929 <= maxTan * maxTan <= 3.0276
  {
    SquareMonotone(1.73, maxTan);
    SquareMonotone(maxTan, 1.74);
  }

  /** Concrete verdicts in the default room at a 60-degree limit. The room's
      centre at mid-height is refused: cable 1 is at about 62 degrees. */
  lemma SafetyTestVectors(maxTan: real)
    requires 1.73 <= maxTan <= 1.74
    ensures IsSafe(DefaultGeometry(maxTan), Point(200.0, 200.0, 150.0)) == TooSteep(1)
    ensures IsSafe(DefaultGeometry(maxTan), Point(200.0, 200.0, 100.0)) == Safe
    ensures IsSafe(DefaultGeometry(maxTan), Point(200.0, 200.0, 280.0)) == ZOutOfBounds
    ensures IsSafe(DefaultGeometry(maxTan), Point(10.0, 10.0, 150.0)) == TooSteep(2)
    ensures IsSafe(DefaultGeometry(maxTan), Point(-1.0, 500.0, 150.0)) == XOutOfBounds
  {
    var g := DefaultGeometry(maxTan);
    TangentSquare(maxTan);
    assert Sq(maxTan * 150.0) == maxTan * maxTan * 22500.0;
    assert Sq(maxTan * 200.0) == maxTan * maxTan * 40000.0;
    var c := Point(200.0, 200.0, 150.0);
    assert HorizSq(Anchor(g, 1), c) == 80000.0;
    var low := Point(200.0, 200.0, 100.0);
    assert HorizSq(Anchor(g, 1), low) == 80000.0;
    assert HorizSq(Anchor(g, 2), low) == 80000.0;
    assert HorizSq(Anchor(g, 3), low) == 80000.0;
    assert HorizSq(Anchor(g, 4), low) == 80000.0;
    assert FirstSteep(g, low, 5) == Safe;
    var corner := Point(10.0, 10.0, 150.0);
    assert HorizSq(Anchor(g, 1), corner) == 200.0;
    assert HorizSq(Anchor(g, 2), corner) == 152200.0;
  }

  // ---------------------------------------------------------------------
  // find_safe_boundary
  // ---------------------------------------------------------------------

  /** `c + t * (target - c)`. */
  function Along(c: real, t: real, target: real): real { c + t * (target - c) }

  /** The point at parameter `t` on the ray from the centre toward the target. */
  function RayPoint(g: Geometry, tx: real, ty: real, z: real, t: real): Point
  {
    Point(Along(g.width / 2.0, t, tx), Along(g.length / 2.0, t, ty), z)
  }

  datatype Search = Search(low: real, high: real, best: real)

  function Half(n: nat): real
  {
    if n == 0 then 1.0 else Half(n - 1) / 2.0
  }

  /** One halving: test the midpoint; keep it as `best` and the new `low`
      if it is safe, else make it the new `high`. */
  function Halve(g: Geometry, tx: real, ty: real, z: real, s: Search): Search
  {
    var mid := (s.low + s.high) / 2.0;
    if IsSafe(g, RayPoint(g, tx, ty, z, mid)) == Safe then Search(mid, s.high, mid)
    else Search(s.low, mid, s.best)
  }

  /** The search state after `n` halvings. */
  function Bisection(g: Geometry, tx: real, ty: real, z: real, n: nat): Search
  {
    if n == 0 then Search(0.0, 1.0, 0.0)
    else Halve(g, tx, ty, z, Bisection(g, tx, ty, z, n - 1))
  }

  /** After any number of halvings: `0 <= best == low < high <= 1`, the
      bracket has width 2^-n, and `best` is 0 or a parameter that tested safe. */
  lemma {:induction false} BisectionInvariant(g: Geometry, tx: real, ty: real, z: real, n: nat)
    ensures var s := Bisection(g, tx, ty, z, n);
      0.0 <= s.best == s.low < s.high <= 1.0 && s.high - s.low == Half(n) &&
      (s.best == 0.0 || IsSafe(g, RayPoint(g, tx, ty, z, s.best)) == Safe)
  {
    if n > 0 {
      BisectionInvariant(g, tx, ty, z, n - 1);
    }
  }

  /** `find_safe_boundary`: an already-safe target is returned unchanged;
      otherwise ten halvings of [0, 1] along the ray from the centre, and the
      point at the best safe parameter found. */
  method FindSafeBoundary(g: Geometry, tx: real, ty: real, z: real) returns (fx: real, fy: real)
    ensures IsSafe(g, Point(tx, ty, z)) == Safe ==> fx == tx && fy == ty
    ensures IsSafe(g, Point(tx, ty, z)) != Safe ==>
      RayPoint(g, tx, ty, z, Bisection(g, tx, ty, z, 10).best) == Point(fx, fy, z)
    ensures IsSafe(g, Point(tx, ty, z)) != Safe ==>
      IsSafe(g, Point(fx, fy, z)) == Safe || (fx == g.width / 2.0 && fy == g.length / 2.0)
  {
    var cx, cy := g.width / 2.0, g.length / 2.0;
    if IsSafe(g, Point(tx, ty, z)) == Safe {
      return tx, ty;
    }
    var low, high, bestT := 0.0, 1.0, 0.0;
    for i := 0 to 10
      invariant Bisection(g, tx, ty, z, i) == Search(low, high, bestT)
    {
      var mid := (low + high) / 2.0;
      var px := Along(cx, mid, tx);
      var py := Along(cy, mid, ty);
      assert RayPoint(g, tx, ty, z, mid) == Point(px, py, z);
      ghost var next := Halve(g, tx, ty, z, Search(low, high, bestT));
      if IsSafe(g, Point(px, py, z)) == Safe {
        bestT := mid;
        low := mid;
      } else {
        high := mid;
      }
      assert Search(low, high, bestT) == next;
    }
    fx := Along(cx, bestT, tx);
    fy := Along(cy, bestT, ty);
    assert Point(fx, fy, z) == RayPoint(g, tx, ty, z, bestT);
    BisectionEndsSafeOrAtCentre(g, tx, ty, z);
  }

  /** The parameter the bisection settles on names a safe point, or is 0,
      which names the centre. */
  lemma BisectionEndsSafeOrAtCentre(g: Geometry, tx: real, ty: real, z: real)
    ensures var p := RayPoint(g, tx, ty, z, Bisection(g, tx, ty, z, 10).best);
      IsSafe(g, p) == Safe || p == Point(g.width / 2.0, g.length / 2.0, z)
  {
    BisectionInvariant(g, tx, ty, z, 10);
    var t := Bisection(g, tx, ty, z, 10).best;
    if t == 0.0 {
      assert Along(g.width / 2.0, t, tx) == g.width / 2.0;
      assert Along(g.length / 2.0, t, ty) == g.length / 2.0;
    }
  }

  /** Ten halvings leave a bracket of 1/1024 of the ray, and the parameter
      returned is below 1: the unsafe target itself is never returned. */
  lemma BisectionPrecision(g: Geometry, tx: real, ty: real, z: real)
    ensures var s := Bisection(g, tx, ty, z, 10);
      s.high - s.low == 1.0 / 1024.0 && 0.0 <= s.best < 1.0
  {
    BisectionInvariant(g, tx, ty, z, 10);
    assert Half(10) == 1.0 / 1024.0;
  }

  // ---------------------------------------------------------------------
  // find_max_height
  // ---------------------------------------------------------------------

  function Max(a: real, b: real): real { if a >= b then a else b }
  function Min(a: real, b: real): real { if a <= b then a else b }

  /** The running maximum of the horizontal distances to pulleys 1..n,
      starting from 0. */
  function MaxHoriz(g: Geometry, x: real, y: real, sqrt: real -> real, n: nat): real
    requires n <= 4
  {
    if n == 0 then 0.0
    else
      var d := sqrt(HorizSq(Anchor(g, n), Point(x, y, 0.0)));
      var m := MaxHoriz(g, x, y, sqrt, n - 1);
      if d > m then d else m
  }

  lemma {:induction false} MaxHorizBounds(g: Geometry, x: real, y: real, sqrt: real -> real, n: nat)
    requires n <= 4
    ensures 0.0 <= MaxHoriz(g, x, y, sqrt, n)
    ensures forall j :: 1 <= j <= n ==> sqrt(HorizSq(Anchor(g, j), Point(x, y, 0.0))) <= MaxHoriz(g, x, y, sqrt, n)
  {
    if n > 0 {
      MaxHorizBounds(g, x, y, sqrt, n - 1);
    }
  }

  /** `find_max_height`: the height at which the farthest pulley's cable is
      exactly at the safe angle, capped by the ceiling margin. A zero
      tangent makes the division raise. */
  method FindMaxHeight(g: Geometry, x: real, y: real, sqrt: real -> real) returns (r: Option<real>)
    ensures r.None? <==> g.maxTan == 0.0
    ensures r.Some? ==> r.value <= g.height - g.ceilingMargin
    ensures r.Some? ==>
      r.value == Min(g.height - MaxHoriz(g, x, y, sqrt, 4) / g.maxTan, g.height - g.ceilingMargin)
  {
    var maxHorizDist := 0.0;
    for wid := 1 to 5
      invariant maxHorizDist == MaxHoriz(g, x, y, sqrt, wid - 1)
    {
      var a := Anchor(g, wid);
      var d := sqrt(Sq(x - a.x) + Sq(y - a.y));
      assert HorizSq(a, Point(x, y, 0.0)) == Sq(x - a.x) + Sq(y - a.y);
      if d > maxHorizDist {
        maxHorizDist := d;
      }
    }
    if g.maxTan == 0.0 {
      return None;
    }
    var minVerticalDist := maxHorizDist / g.maxTan;
    var maxZ := g.height - minVerticalDist;
    var ceilingLimit := g.height - g.ceilingMargin;
    r := Some(Min(maxZ, ceilingLimit));
  }

  /** At the height `find_max_height` answers, no cable is too steep. */
  lemma MaxHeightKeepsAngle(g: Geometry, x: real, y: real, sqrt: real -> real, wid: int)
    requires IsSqrt(sqrt) && g.maxTan > 0.0 && IsWinch(wid)
    ensures var z := Min(g.height - MaxHoriz(g, x, y, sqrt, 4) / g.maxTan, g.height - g.ceilingMargin);
      !Steep(g, Point(x, y, z), wid)
  {
    var m := MaxHoriz(g, x, y, sqrt, 4);
    var z := Min(g.height - m / g.maxTan, g.height - g.ceilingMargin);
    var p := Point(x, y, z);
    var a := Anchor(g, wid);
    MaxHorizBounds(g, x, y, sqrt, 4);
    var hs := HorizSq(a, Point(x, y, 0.0));
    assert HorizSq(a, p) == hs;
    HorizSqNonNegative(a, Point(x, y, 0.0));
    var d := sqrt(hs);
    assert 0.0 <= d && d * d == hs;
    assert d <= m;
    assert Drop(g, p) >= m / g.maxTan;
    assert g.maxTan * Drop(g, p) >= g.maxTan * (m / g.maxTan);
    assert g.maxTan * Drop(g, p) >= m;
    SquareMonotone(d, g.maxTan * Drop(g, p));
  }

  /** Over the floor, with a ceiling margin above 0.1 and a height no lower
      than the floor margin, the answer of `find_max_height` passes `is_safe`. */
  lemma MaxHeightIsSafe(g: Geometry, x: real, y: real, sqrt: real -> real)
    requires IsSqrt(sqrt) && g.maxTan > 0.0 && g.ceilingMargin > 0.1
    requires 0.0 <= x <= g.width && 0.0 <= y <= g.length
    requires g.floorMargin <= Min(g.height - MaxHoriz(g, x, y, sqrt, 4) / g.maxTan, g.height - g.ceilingMargin)
    ensures IsSafe(g, Point(x, y, Min(g.height - MaxHoriz(g, x, y, sqrt, 4) / g.maxTan, g.height - g.ceilingMargin))) == Safe
  {
    var z := Min(g.height - MaxHoriz(g, x, y, sqrt, 4) / g.maxTan, g.height - g.ceilingMargin);
    var p := Point(x, y, z);
    MaxHeightKeepsAngle(g, x, y, sqrt, 1);
    MaxHeightKeepsAngle(g, x, y, sqrt, 2);
    MaxHeightKeepsAngle(g, x, y, sqrt, 3);
    MaxHeightKeepsAngle(g, x, y, sqrt, 4);
    IsSafeMeaning(g, p);
  }
}
