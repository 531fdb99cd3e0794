/**
 * The orbit ring (OrbitLine.jsx): a closed polyline of `segments + 1`
 * points on the circle of the given radius in the y = 0 plane.
 */
module OrbitLine {
  import opened Oracles

  /** A point `[x, y, z]` of the polyline. */
  datatype Point3 = Point3(x: real, y: real, z: real)

  /** The default number of segments. */
  const DefaultSegments: nat := 128

  /** The angle of point i, `(i / segments) * PI * 2`. */
  function Angle(i: nat, segments: nat): real
    requires segments > 0
  {
    (i as real / segments as real) * Pi * 2.0
  }

  /** Point i of the ring. */
  function RingPoint(radius: real, i: nat, segments: nat, trig: Trig): (p: Point3)
    requires segments > 0
    ensures p.y == 0.0
  {
    var angle := Angle(i, segments);
    Point3(radius * trig.cos(angle), 0.0, radius * trig.sin(angle))
  }

  /** The angles start at 0, end at a full turn and strictly increase in
      between, so the points go once round the circle. */
  lemma AnglesSweepOneTurn(segments: nat)
    requires segments > 0
    ensures Angle(0, segments) == 0.0
    ensures Angle(segments, segments) == 2.0 * Pi
    ensures forall i, j :: 0 <= i < j <= segments ==> Angle(i, segments) < Angle(j, segments)
  {
    assert segments as real / segments as real == 1.0;
    forall i, j | 0 <= i < j <= segments
      ensures Angle(i, segments) < Angle(j, segments)
    {
      DivisionIsMonotone(i as real, j as real, segments as real);
    }
  }

  /** The loop that builds `points`: one point for each i from 0 to
      `segments`, both included. */
  method OrbitPoints(radius: real, segments: nat, trig: Trig) returns (points: seq<Point3>)
    requires segments > 0
    ensures |points| == segments + 1
    ensures forall i :: 0 <= i <= segments ==> points[i] == RingPoint(radius, i, segments, trig)
  {
    points := [];
    for i := 0 to segments + 1
      invariant |points| == i
      invariant forall k :: 0 <= k < i ==> points[k] == RingPoint(radius, k, segments, trig)
    {
      var angle := (i as real / segments as real) * Pi * 2.0;
      var x := radius * trig.cos(angle);
      var z := radius * trig.sin(angle);
      points := points + [Point3(x, 0.0, z)];
    }
  }

  function Abs(x: real): real {
    if x < 0.0 then -x else x
  }

  /** Scaling two numbers that differ by at most `gap` by r makes them
      differ by at most |r| * gap. */
  lemma ScaledGap(r: real, a: real, b: real, gap: real, ra: real, rb: real)
    requires ra == r * a && rb == r * b
    requires Abs(a - b) <= gap
    ensures Abs(ra - rb) <= Abs(r) * gap
  {
    assert ra - rb == r * (a - b);
    assert Abs(r * (a - b)) == Abs(r) * Abs(a - b);
    assert Abs(r) * Abs(a - b) <= Abs(r) * gap;
  }

  /** The first point is at angle 0 and the last at 2 * `Math.PI`. */
  lemma EndPoints(radius: real, segments: nat, trig: Trig)
    requires segments > 0
    ensures RingPoint(radius, 0, segments, trig) == Point3(radius * trig.cos(0.0), 0.0, radius * trig.sin(0.0))
    ensures RingPoint(radius, segments, segments, trig) == Point3(radius * trig.cos(2.0 * Pi), 0.0, radius * trig.sin(2.0 * Pi))
  {
    AnglesSweepOneTurn(segments);
  }

  /** The last point sits at a full turn and the first at angle 0, so the
      ring closes up to how far sin and cos at 2 * `Math.PI` stray from
      their values at 0: if both stray by at most `gap`, the last point is
      within |radius| * gap of the first in x and z, and level with it. */
  lemma RingCloses(radius: real, segments: nat, trig: Trig, gap: real)
    requires segments > 0
    requires Abs(trig.cos(2.0 * Pi) - trig.cos(0.0)) <= gap
    requires Abs(trig.sin(2.0 * Pi) - trig.sin(0.0)) <= gap
    ensures RingPoint(radius, segments, segments, trig).y == RingPoint(radius, 0, segments, trig).y
    ensures Abs(RingPoint(radius, segments, segments, trig).x - RingPoint(radius, 0, segments, trig).x) <= Abs(radius) * gap
    ensures Abs(RingPoint(radius, segments, segments, trig).z - RingPoint(radius, 0, segments, trig).z) <= Abs(radius) * gap
  {
    EndPoints(radius, segments, trig);
    var last, first := RingPoint(radius, segments, segments, trig), RingPoint(radius, 0, segments, trig);
    ScaledGap(radius, trig.cos(2.0 * Pi), trig.cos(0.0), gap, last.x, first.x);
    ScaledGap(radius, trig.sin(2.0 * Pi), trig.sin(0.0), gap, last.z, first.z);
  }

  /** With a trigonometry that satisfies sin² + cos² = 1 at the point's
      angle, every point lies on the circle of the given radius: the ring is
      a circle and never an ellipse. */
  lemma RingIsCircular(radius: real, i: nat, segments: nat, trig: Trig)
    requires segments > 0
    requires trig.sin(Angle(i, segments)) * trig.sin(Angle(i, segments)) + trig.cos(Angle(i, segments)) * trig.cos(Angle(i, segments)) == 1.0
    ensures var p := RingPoint(radius, i, segments, trig); p.x * p.x + p.z * p.z == radius * radius
  {
    var c, s := trig.cos(Angle(i, segments)), trig.sin(Angle(i, segments));
    calc {
      (radius * c) * (radius * c) + (radius * s) * (radius * s);
      (radius * radius) * (c * c + s * s);
      radius * radius;
    }
  }
}
