/**
 * The background starfield (Starfield.jsx): `count` stars placed at random
 * in a spherical shell and tinted from white to light blue, written into
 * two flat buffers of three numbers per star, and a slow spin applied on
 * every frame.
 */
module Starfield {
  import opened Oracles

  /** The six `Math.random()` draws one star consumes, in program order. */
  datatype StarDraw = StarDraw(radius: real, theta: real, phi: real, red: real, green: real, blue: real)

  predicate ValidStarDraw(d: StarDraw) {
    IsUnitDraw(d.radius) && IsUnitDraw(d.theta) && IsUnitDraw(d.phi) &&
    IsUnitDraw(d.red) && IsUnitDraw(d.green) && IsUnitDraw(d.blue)
  }

  /** The default number of stars. */
  const DefaultStarCount: nat := 5000

  /** The distance of a star from the centre. */
  function StarRadius(d: StarDraw): real {
    50.0 + d.radius * 50.0
  }

  /** The star's longitude. */
  function StarTheta(d: StarDraw): real {
    d.theta * Pi * 2.0
  }

  /** The star's polar angle, `acos(2r - 1)`. */
  function StarPhi(d: StarDraw, trig: Trig): real {
    trig.acos(2.0 * d.phi - 1.0)
  }

  /** Channel c (0 = x, 1 = y, 2 = z) of the star's position. */
  function PositionChannel(d: StarDraw, trig: Trig, c: nat): real
    requires c < 3
  {
    var r, theta, phi := StarRadius(d), StarTheta(d), StarPhi(d, trig);
    if c == 0 then r * trig.sin(phi) * trig.cos(theta)
    else if c == 1 then r * trig.sin(phi) * trig.sin(theta)
    else r * trig.cos(phi)
  }

  /** Channel c (0 = red, 1 = green, 2 = blue) of the star's colour. */
  function ColorChannel(d: StarDraw, c: nat): real
    requires c < 3
  {
    if c == 0 then 0.8 + d.red * 0.2
    else if c == 1 then 0.8 + d.green * 0.2
    else 0.9 + d.blue * 0.1
  }

  /** A star lies in the shell between radius 50 (included) and 100. */
  lemma RadiusInShell(d: StarDraw)
    requires ValidStarDraw(d)
    ensures 50.0 <= StarRadius(d) < 100.0
  {
  }

  /** Stars are near-white: red and green in [0.8, 1), blue in [0.9, 1). */
  lemma ColorInRange(d: StarDraw, c: nat)
    requires ValidStarDraw(d) && c < 3
    ensures 0.8 <= ColorChannel(d, c) < 1.0
    ensures c == 2 ==> 0.9 <= ColorChannel(d, c)
  {
  }

  /** With a trigonometry that satisfies sin² + cos² = 1 at the star's two
      angles, the star lies on the sphere of its radius. */
  lemma StarOnSphere(d: StarDraw, trig: Trig)
    requires trig.sin(StarPhi(d, trig)) * trig.sin(StarPhi(d, trig)) + trig.cos(StarPhi(d, trig)) * trig.cos(StarPhi(d, trig)) == 1.0
    requires trig.sin(StarTheta(d)) * trig.sin(StarTheta(d)) + trig.cos(StarTheta(d)) * trig.cos(StarTheta(d)) == 1.0
    ensures PositionChannel(d, trig, 0) * PositionChannel(d, trig, 0)
          + PositionChannel(d, trig, 1) * PositionChannel(d, trig, 1)
          + PositionChannel(d, trig, 2) * PositionChannel(d, trig, 2)
          == StarRadius(d) * StarRadius(d)
  {
    var r, sp, cp := StarRadius(d), trig.sin(StarPhi(d, trig)), trig.cos(StarPhi(d, trig));
    var st, ct := trig.sin(StarTheta(d)), trig.cos(StarTheta(d));
    calc {
      (r * sp * ct) * (r * sp * ct) + (r * sp * st) * (r * sp * st) + (r * cp) * (r * cp);
      (r * r) * (sp * sp) * (ct * ct + st * st) + (r * r) * (cp * cp);
      (r * r) * (sp * sp + cp * cp);
      r * r;
    }
  }

  /** The body of the `useMemo` loop for star i: it writes slots 3i, 3i+1
      and 3i+2 of each buffer and no other slot. */
  method WriteStar(positions: array<real>, colors: array<real>, i: nat, d: StarDraw, trig: Trig)
    requires positions != colors
    requires 3 * i + 2 < positions.Length && 3 * i + 2 < colors.Length
    modifies positions, colors
    ensures forall c :: 0 <= c < 3 ==>
      positions[3 * i + c] == PositionChannel(d, trig, c) &&
      colors[3 * i + c] == ColorChannel(d, c)
    ensures forall k :: 0 <= k < positions.Length && !(3 * i <= k < 3 * i + 3) ==> positions[k] == old(positions[k])
    ensures forall k :: 0 <= k < colors.Length && !(3 * i <= k < 3 * i + 3) ==> colors[k] == old(colors[k])
  {
    var radius := 50.0 + d.radius * 50.0;
    var theta := d.theta * Pi * 2.0;
    var phi := trig.acos(2.0 * d.phi - 1.0);
    var x, y, z := radius * trig.sin(phi) * trig.cos(theta), radius * trig.sin(phi) * trig.sin(theta), radius * trig.cos(phi);
    assert x == PositionChannel(d, trig, 0) && y == PositionChannel(d, trig, 1) && z == PositionChannel(d, trig, 2);

    positions[i * 3] := x;
    positions[i * 3 + 1] := y;
    positions[i * 3 + 2] := z;

    colors[i * 3] := 0.8 + d.red * 0.2;
    colors[i * 3 + 1] := 0.8 + d.green * 0.2;
    colors[i * 3 + 2] := 0.9 + d.blue * 0.1;
  }

  /** The `useMemo` loop: two zero-filled buffers of `3 * count` numbers, in
      which iteration i writes slots 3i, 3i+1 and 3i+2 of each from star i's
      draws, and no slot is written before its star's turn. Slot 3j + c ends
      up holding channel c of star j. */
  method FillStars(count: nat, draws: seq<StarDraw>, trig: Trig) returns (positions: array<real>, colors: array<real>)
    requires |draws| == count
    ensures fresh(positions) && fresh(colors)
    ensures positions.Length == 3 * count && colors.Length == 3 * count
    ensures forall j, c :: 0 <= j < count && 0 <= c < 3 ==>
      positions[3 * j + c] == PositionChannel(draws[j], trig, c) &&
      colors[3 * j + c] == ColorChannel(draws[j], c)
  {
    positions := new real[count * 3](_ => 0.0);
    colors := new real[count * 3](_ => 0.0);
    for i := 0 to count
      invariant forall j, c :: 0 <= j < i && 0 <= c < 3 ==>
        positions[3 * j + c] == PositionChannel(draws[j], trig, c) &&
        colors[3 * j + c] == ColorChannel(draws[j], c)
      invariant forall k :: 3 * i <= k < 3 * count ==> positions[k] == 0.0 && colors[k] == 0.0
    {
      WriteStar(positions, colors, i, draws[i], trig);
    }
  }

  /** The rotation the field has after some frames, starting from `start`. */
  function RotationAfter(start: real, frames: nat): real {
    if frames == 0 then start else RotationAfter(start, frames - 1) - 0.0001
  }

  /** After n frames the field has turned by exactly n * 0.0001 radians. */
  lemma {:induction false} RotationIsLinear(start: real, frames: nat)
    ensures RotationAfter(start, frames) == start - frames as real * 0.0001
  {
    if frames > 0 {
      RotationIsLinear(start, frames - 1);
    }
  }

  /** The points object whose rotation the frame callback turns. */
  class Mesh {
    var rotationY: real

    constructor(rotationY: real)
      ensures this.rotationY == rotationY
    {
      this.rotationY := rotationY;
    }
  }

  /** The `useFrame` callback: the mesh, once mounted, turns by 0.0001
      radians about y; before it is mounted nothing happens. */
  method OnFrame(mesh: Mesh?)
    modifies mesh
    ensures mesh != null ==> mesh.rotationY == RotationAfter(old(mesh.rotationY), 1)
  {
    if mesh != null {
      mesh.rotationY := mesh.rotationY - 0.0001;
    }
  }
}
