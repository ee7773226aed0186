/**
 * Value types shared by every entity, the fixed metre/scene-unit convention of
 * the 2D canvas, and the angle arithmetic used for headings and ports.
 * Coordinates are `real`: the source's IEEE floats are modelled as exact reals.
 */
module Geometry {

  /** A point or offset in the plane. */
  datatype Vec2 = Vec2(x: real, y: real)

  /** A point or offset in space. */
  datatype Vec3 = Vec3(x: real, y: real, z: real)

  /** Width, length and height in metres (the source's three-element size list). */
  datatype Size3 = Size3(width: real, length: real, height: real)

  /** An axis-aligned rectangle as the canvas toolkit builds it: top-left corner, width, height. */
  datatype Rect = Rect(x: real, y: real, w: real, h: real)

  /**
   * The trigonometric functions the source takes from its maths library. They
   * are left uninterpreted; every statement that needs one of their values
   * takes it as a hypothesis. Angles are in radians.
   */
  datatype Trig = Trig(cos: real -> real, sin: real -> real, tan: real -> real)

  /** The maths library's double-precision value of pi. */
  const Pi: real := 3.141592653589793

  /** Scene units per metre on the 2D canvas. */
  const SceneScale: real := 100.0

  function Add2(a: Vec2, b: Vec2): Vec2 { Vec2(a.x + b.x, a.y + b.y) }

  function Add3(a: Vec3, b: Vec3): Vec3 { Vec3(a.x + b.x, a.y + b.y, a.z + b.z) }

  function Sub3(a: Vec3, b: Vec3): Vec3 { Vec3(a.x - b.x, a.y - b.y, a.z - b.z) }

  function Scale3(k: real, a: Vec3): Vec3 { Vec3(k * a.x, k * a.y, k * a.z) }

  function Norm2Sq(v: Vec2): real { v.x * v.x + v.y * v.y }

  function Centre(r: Rect): Vec2 { Vec2(r.x + r.w / 2.0, r.y + r.h / 2.0) }

  function Radians(degrees: real): real { degrees * Pi / 180.0 }

  /** Placement of a point given in metres on the canvas: x scaled, y scaled and flipped. */
  function ToScene(p: Vec2): (s: Vec2)
    ensures s.x / SceneScale == p.x && -s.y / SceneScale == p.y
  {
    Vec2(p.x * SceneScale, -(p.y * SceneScale))
  }

  /** Conversion of a canvas point back to metres. */
  function FromScene(s: Vec2): (p: Vec2)
    ensures ToScene(p) == s
  {
    Vec2(s.x / SceneScale, -s.y / SceneScale)
  }

  lemma PlacementRoundTrip(p: Vec2)
    ensures FromScene(ToScene(p)) == p
  {
  }

  /**
   * Counter-clockwise rotation of `v` by the angle whose cosine is `c` and
   * whose sine is `s`.
   */
  function Rotate(v: Vec2, c: real, s: real): Vec2
  {
    Vec2(v.x * c - v.y * s, v.x * s + v.y * c)
  }

  /** A rotation keeps the length of the offset it rotates. */
  lemma RotatePreservesLength(v: Vec2, c: real, s: real)
    requires c * c + s * s == 1.0
    ensures Norm2Sq(Rotate(v, c, s)) == Norm2Sq(v)
  {
    var r := Rotate(v, c, s);
    assert r.x * r.x == v.x * v.x * (c * c) - 2.0 * (v.x * v.y) * (c * s) + v.y * v.y * (s * s);
    assert r.y * r.y == v.x * v.x * (s * s) + 2.0 * (v.x * v.y) * (c * s) + v.y * v.y * (c * c);
    calc {
      Norm2Sq(r);
      v.x * v.x * (c * c + s * s) + v.y * v.y * (c * c + s * s);
      v.x * v.x + v.y * v.y;
    }
  }

  /**
   * The floating-point `%` of the source with a positive modulus: the
   * remainder of flooring division, which lies in [0, m).
   */
  function FloorMod(a: real, m: real): (r: real)
    requires m > 0.0
    ensures 0.0 <= r < m
    ensures 0.0 <= a < m ==> r == a
  {
    FloorDivBounds(a, m);
    a - m * ((a / m).Floor as real)
  }

  lemma FloorDivBounds(a: real, m: real)
    requires m > 0.0
    ensures m * ((a / m).Floor as real) <= a < m * ((a / m).Floor as real) + m
    ensures 0.0 <= a < m ==> (a / m).Floor == 0
  {
    var t := a / m;
    var q := t.Floor as real;
    assert a == m * t;
    assert q <= t < q + 1.0;
    MulMono(m, q, t);
    MulMono(m, t, q + 1.0);
    assert m * (q + 1.0) == m * q + m;
    assert m * t < m * (q + 1.0);
    assert a < m * q + m;
    if 0.0 <= a < m {
      assert 0.0 <= t;
      assert t < 1.0 by {
        if t >= 1.0 {
          MulMono(m, 1.0, t);
        }
      }
    }
  }

  lemma MulMono(m: real, x: real, y: real)
    requires m > 0.0
    ensures x <= y ==> m * x <= m * y
    ensures x < y ==> m * x < m * y
  {
  }

  /** Adding whole turns does not change the remainder. */
  lemma {:induction false} FloorModPeriodic(a: real, k: int, m: real)
    requires m > 0.0
    ensures FloorMod(a + k as real * m, m) == FloorMod(a, m)
  {
    var q := (a / m).Floor;
    assert (a + k as real * m) / m == a / m + k as real;
    assert ((a + k as real * m) / m).Floor == q + k;
  }
}
