/**
 * Points of the playing field, Python's integer conversions and `range`, and the
 * four axis-aligned quadrants the command centre splits the field into.
 */
module Geometry {

  /** A point of the field. The engine uses floats; the model uses exact reals. */
  datatype Point = Point(x: real, y: real)

  /** The two coordinate axes, used where the source picks a coordinate by attribute name. */
  datatype Axis = X | Y

  function Other(a: Axis): Axis {
    if a == X then Y else X
  }

  function Coord(p: Point, a: Axis): real {
    if a == X then p.x else p.y
  }

  /** The point whose coordinate on `a` is `main` and whose other coordinate is `second`. */
  function WithCoords(a: Axis, main: real, second: real): (p: Point)
    ensures Coord(p, a) == main && Coord(p, Other(a)) == second
  {
    if a == X then Point(main, second) else Point(second, main)
  }

  /** Python's `int()` applied to a float: truncation toward zero. */
  function Trunc(r: real): (n: int)
    ensures 0.0 <= r ==> 0 <= n && n as real <= r < n as real + 1.0
    ensures r < 0.0 ==> n <= 0 && n as real - 1.0 < r <= n as real
  {
    if r >= 0.0 then r.Floor else -((-r).Floor)
  }

  /** `MoveBaseAction.is_same_points`: both coordinates agree, which is exactly equality of points. */
  function IsSamePoints(p: Point, q: Point): (same: bool)
    ensures same <==> p == q
  {
    p.x == q.x && p.y == q.y
  }

  /** The smallest of a non-empty list of reals (Python's `min`). */
  function Lowest(vs: seq<real>): (m: real)
    requires |vs| > 0
    ensures forall i :: 0 <= i < |vs| ==> m <= vs[i]
    ensures exists i :: 0 <= i < |vs| && m == vs[i]
  {
    if |vs| == 1 then vs[0]
    else
      var rest := Lowest(vs[1..]);
      assert forall i :: 1 <= i < |vs| ==> vs[i] == vs[1..][i - 1];
      if vs[0] <= rest then vs[0] else rest
  }

  /** The largest of a non-empty list of reals (Python's `max`). */
  function Highest(vs: seq<real>): (m: real)
    requires |vs| > 0
    ensures forall i :: 0 <= i < |vs| ==> vs[i] <= m
    ensures exists i :: 0 <= i < |vs| && m == vs[i]
  {
    if |vs| == 1 then vs[0]
    else
      var rest := Highest(vs[1..]);
      assert forall i :: 1 <= i < |vs| ==> vs[i] == vs[1..][i - 1];
      if rest <= vs[0] then vs[0] else rest
  }

  function Xs(cs: seq<Point>): (r: seq<real>)
    ensures |r| == |cs| && forall i :: 0 <= i < |cs| ==> r[i] == cs[i].x
  {
    seq(|cs|, i requires 0 <= i < |cs| => cs[i].x)
  }

  function Ys(cs: seq<Point>): (r: seq<real>)
    ensures |r| == |cs| && forall i :: 0 <= i < |cs| ==> r[i] == cs[i].y
  {
    seq(|cs|, i requires 0 <= i < |cs| => cs[i].y)
  }

  /**
   * `CommandCenter.is_enter_in_sector`: the point lies in the bounding box of the corners,
   * bounds included. Equivalently, each coordinate of `p` is bracketed by the corresponding
   * coordinates of two (not necessarily different) corners.
   */
  function InSector(corners: seq<Point>, p: Point): (inside: bool)
    requires |corners| > 0
    ensures inside <==>
      (exists i :: 0 <= i < |corners| && corners[i].x <= p.x) &&
      (exists i :: 0 <= i < |corners| && p.x <= corners[i].x) &&
      (exists i :: 0 <= i < |corners| && corners[i].y <= p.y) &&
      (exists i :: 0 <= i < |corners| && p.y <= corners[i].y)
  {
    var minX, maxX := Lowest(Xs(corners)), Highest(Xs(corners));
    var minY, maxY := Lowest(Ys(corners)), Highest(Ys(corners));
    minX <= p.x <= maxX && minY <= p.y <= maxY
  }

  /** `CommandCenter.point_center_field`: both halves go through `int()`. */
  function CenterOfField(width: nat, height: nat): Point {
    Point(Trunc(width as real / 2.0) as real, Trunc(height as real / 2.0) as real)
  }

  /**
   * `CommandCenter.unsorted_sectors`: the four quadrants, each given by four corners.
   * The outer halves use float division, the shared centre corner uses `int()`.
   */
  function Quadrants(width: nat, height: nat): (qs: seq<seq<Point>>)
    ensures |qs| == 4 && forall k :: 0 <= k < 4 ==> |qs[k]| == 4
  {
    var w, h := width as real, height as real;
    var c := CenterOfField(width, height);
    [
      [Point(0.0, 0.0), Point(w / 2.0, 0.0), c, Point(0.0, h / 2.0)],
      [Point(0.0, h / 2.0), c, Point(w / 2.0, h), Point(0.0, h)],
      [Point(w / 2.0, 0.0), Point(w, 0.0), Point(w, h / 2.0), c],
      [c, Point(w, h / 2.0), Point(w, h), Point(w / 2.0, h)]
    ]
  }

  predicate InField(width: nat, height: nat, p: Point) {
    0.0 <= p.x <= width as real && 0.0 <= p.y <= height as real
  }

  /** Every corner of every quadrant is a point of the field. */
  lemma QuadrantCornersInField(width: nat, height: nat)
    ensures forall k, i :: 0 <= k < 4 && 0 <= i < 4 ==> InField(width, height, Quadrants(width, height)[k][i])
  {
    var c := CenterOfField(width, height);
    assert 0.0 <= c.x <= width as real / 2.0 && 0.0 <= c.y <= height as real / 2.0;
  }

  /** A point of the field lies in the quadrant picked by comparing it with the half lines. */
  lemma FieldPointInQuadrant(width: nat, height: nat, p: Point) returns (k: nat)
    requires InField(width, height, p)
    ensures k < 4 && InSector(Quadrants(width, height)[k], p)
  {
    var qs: seq<seq<Point>> := Quadrants(width, height);
    var w, h := width as real, height as real;
    var c := CenterOfField(width, height);
    assert 0.0 <= c.x <= w / 2.0 && 0.0 <= c.y <= h / 2.0;
    if p.x <= w / 2.0 && p.y <= h / 2.0 {
      k := 0;
      Bracketed(qs[0], p, 0, 1, 0, 3);
    } else if p.x <= w / 2.0 {
      k := 1;
      Bracketed(qs[1], p, 0, 2, 1, 3);
    } else if p.y <= h / 2.0 {
      k := 2;
      Bracketed(qs[2], p, 3, 1, 0, 2);
    } else {
      k := 3;
      Bracketed(qs[3], p, 0, 1, 0, 2);
    }
  }

  /** A point whose coordinates are bracketed by corners lies in the sector. */
  lemma Bracketed(corners: seq<Point>, p: Point, a: nat, b: nat, c: nat, d: nat)
    requires a < |corners| && b < |corners| && c < |corners| && d < |corners|
    requires corners[a].x <= p.x <= corners[b].x && corners[c].y <= p.y <= corners[d].y
    ensures InSector(corners, p)
  {
  }

  /**
   * The quadrants tile the field: a point is in the field exactly when it lies in at
   * least one quadrant (points on a shared edge lie in two or four).
   */
  lemma QuadrantsCoverField(width: nat, height: nat, p: Point)
    ensures InField(width, height, p) <==>
      exists k :: 0 <= k < 4 && InSector(Quadrants(width, height)[k], p)
  {
    var qs: seq<seq<Point>> := Quadrants(width, height);
    if InField(width, height, p) {
      var k := FieldPointInQuadrant(width, height, p);
    }
    if exists k :: 0 <= k < 4 && InSector(qs[k], p) {
      var k :| 0 <= k < 4 && InSector(qs[k], p);
      QuadrantCornersInField(width, height);
      InsideCorners(width, height, qs[k], p);
    }
  }

  /** A point in a sector whose corners are all in the field is in the field. */
  lemma InsideCorners(width: nat, height: nat, corners: seq<Point>, p: Point)
    requires |corners| > 0 && forall i :: 0 <= i < |corners| ==> InField(width, height, corners[i])
    requires InSector(corners, p)
    ensures InField(width, height, p)
  {
    var a :| 0 <= a < |corners| && corners[a].x <= p.x;
    var b :| 0 <= b < |corners| && p.x <= corners[b].x;
    var c :| 0 <= c < |corners| && corners[c].y <= p.y;
    var d :| 0 <= d < |corners| && p.y <= corners[d].y;
    assert InField(width, height, corners[a]) && InField(width, height, corners[b]);
    assert InField(width, height, corners[c]) && InField(width, height, corners[d]);
  }

  /**
   * Python's `range(start, stop, step)` for a positive step: the values start, start+step, ...
   * strictly below `stop`.
   */
  function PyRange(start: int, stop: int, step: int): (r: seq<int>)
    requires step > 0
    ensures |r| == 0 <==> stop <= start
    ensures forall i :: 0 <= i < |r| ==> start <= r[i] < stop
    decreases stop - start
  {
    if stop <= start then [] else [start] + PyRange(start + step, stop, step)
  }

  /** `range` visits `start`, `start + step`, ... and stops at the last value below `stop`. */
  lemma {:induction false} PyRangeSteps(start: int, stop: int, step: int)
    requires step > 0
    ensures var r := PyRange(start, stop, step);
      (forall i :: 0 <= i < |r| ==> r[i] == start + i * step) && (|r| > 0 ==> stop <= r[|r| - 1] + step)
    decreases stop - start
  {
    if start < stop {
      PyRangeSteps(start + step, stop, step);
      var r := PyRange(start, stop, step);
      var rest := PyRange(start + step, stop, step);
      assert r == [start] + rest;
      forall i | 0 < i < |r|
        ensures r[i] == start + i * step
      {
        assert r[i] == rest[i - 1];
      }
    }
  }
}
