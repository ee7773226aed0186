/**
 * The 3D view's camera: its pose, the zoom, orbit and pan gestures that move
 * it, and the perspective projection it renders with.
 *
 * The view matrix is not recomputed by the gestures: it is rebuilt from the
 * pose only when the view repaints. Every screen-to-world unprojection a
 * gesture performs therefore reads the matrix of the last repaint. The
 * unprojection itself (a matrix inversion) is a parameter.
 */
module Camera {
  import opened Optional
  import opened Geometry

  /** Tilt about x, orbit about y and roll, in degrees; the distance to the pivot; the pan offset. */
  datatype Pose = Pose(tilt: real, orbit: real, roll: real, distance: real, position: Vec3)

  /** The view matrix: the identity before the first repaint, then the one built from a pose. */
  datatype ViewMatrix = Identity | Built(pose: Pose)

  /** A cursor position in widget pixels. */
  datatype Point = Point(x: int, y: int)

  /** The button a press or release reports. */
  datatype MouseButton = LeftButton | MiddleButton | RightButton

  /** The buttons held during a move. */
  datatype HeldButtons = HeldButtons(left: bool, middle: bool)

  /**
   * The widget's size, and the unprojection from a screen point to a world
   * point under a given view matrix (the projection matrix of the last resize
   * is folded into it).
   */
  datatype Screen = Screen(width: real, height: real, unproject: (ViewMatrix, real, real) -> Vec3)

  /** The widget's camera state. */
  datatype GlView = GlView(
    pose: Pose,
    view: ViewMatrix,
    lastPos: Option<Point>,
    panStart: Option<Vec3>,
    mapSize: int)

  const MinZoom: real := 2.0
  const MaxZoom: real := 50.0
  const ZoomSpeed: real := 1.1
  const RotationSpeed: real := 0.5
  const TiltLimit: real := 89.0

  /** The zoom stays within its limits and the tilt short of vertical. */
  ghost predicate Valid(g: GlView)
  {
    && MinZoom <= g.pose.distance <= MaxZoom
    && -TiltLimit <= g.pose.tilt <= TiltLimit
  }

  function InitialView(): (g: GlView)
    ensures g.pose == Pose(45.0, 45.0, 0.0, 15.0, Vec3(-5.0, -5.0, 5.0))
    ensures g.view == Identity && g.lastPos == None && g.panStart == None
    ensures g.mapSize == 10
    ensures Valid(g)
  {
    GlView(Pose(45.0, 45.0, 0.0, 15.0, Vec3(-5.0, -5.0, 5.0)), Identity, None, None, 10)
  }

  /** Repainting rebuilds the view matrix from the current pose. */
  function Paint(g: GlView): (r: GlView)
    ensures r.view == Built(g.pose)
    ensures r == g.(view := r.view)
  {
    g.(view := Built(g.pose))
  }

  /** The world point under the centre of the widget, as the last repaint sees it. */
  function CentreOnPlane(g: GlView, scr: Screen): Vec3
  {
    scr.unproject(g.view, scr.width / 2.0, scr.height / 2.0)
  }

  // ---------------------------------------------------------------------------
  // Zoom

  /** The distance a wheel step proposes: divided by 1.1 on a positive delta, multiplied by 1.1 otherwise. */
  function ProposedDistance(distance: real, deltaY: int): (d: real)
    ensures deltaY > 0 ==> d * ZoomSpeed == distance
    ensures deltaY <= 0 ==> d == distance * ZoomSpeed
  {
    var factor := if deltaY > 0 then ZoomSpeed else 1.0 / ZoomSpeed;
    distance / factor
  }

  /**
   * A wheel step: the proposed distance is taken only when it lies within
   * [2, 50], and the pan offset then moves by the centre point before the
   * change minus the centre point after it.
   */
  function Wheel(g: GlView, deltaY: int, scr: Screen): (r: GlView)
    ensures var d := ProposedDistance(g.pose.distance, deltaY);
      && (MinZoom <= d <= MaxZoom ==> r.pose.distance == d)
      && (!(MinZoom <= d <= MaxZoom) ==> r == g)
    ensures r.pose.position == g.pose.position
    ensures r == g.(pose := g.pose.(distance := r.pose.distance))
  {
    var d := ProposedDistance(g.pose.distance, deltaY);
    if MinZoom <= d <= MaxZoom then
      var before := CentreOnPlane(g, scr);
      var g1 := g.(pose := g.pose.(distance := d));
      var after := CentreOnPlane(g1, scr);
      g1.(pose := g1.pose.(position := Add3(g.pose.position, Sub3(before, after))))
    else g
  }

  /** A zoom in that is taken is undone exactly by the zoom out that follows it. */
  lemma ZoomInThenOut(g: GlView, scr: Screen, inDelta: int, outDelta: int)
    requires Valid(g)
    requires inDelta > 0 && outDelta <= 0
    requires Wheel(g, inDelta, scr) != g
    ensures Wheel(Wheel(g, inDelta, scr), outDelta, scr) == g
  {
    var d := ProposedDistance(g.pose.distance, inDelta);
    assert MinZoom <= d <= MaxZoom;
    var g1 := Wheel(g, inDelta, scr);
    assert g1.pose.distance == d;
    assert ProposedDistance(d, outDelta) == d * ZoomSpeed == g.pose.distance;
  }

  /** From the initial view one step in is taken; from a distance of 2.1 it is refused. */
  lemma ZoomScenario(scr: Screen)
    ensures Wheel(InitialView(), 120, scr).pose.distance == 15.0 / 1.1
    ensures var g := InitialView().(pose := InitialView().pose.(distance := 2.1));
      Wheel(g, 120, scr) == g
  {
    var g := InitialView();
    assert ProposedDistance(15.0, 120) == 15.0 / 1.1;
    var g2 := g.(pose := g.pose.(distance := 2.1));
    assert ProposedDistance(2.1, 120) == 2.1 / 1.1 < MinZoom;
  }

  // ---------------------------------------------------------------------------
  // Press, move, release

  /** `max(-89, min(89, t))`. */
  function ClampTilt(t: real): (r: real)
    ensures -TiltLimit <= r <= TiltLimit
    ensures -TiltLimit <= t <= TiltLimit ==> r == t
    ensures t > TiltLimit ==> r == TiltLimit
    ensures t < -TiltLimit ==> r == -TiltLimit
  {
    var upper := if TiltLimit < t then TiltLimit else t;
    if -TiltLimit > upper then -TiltLimit else upper
  }

  /** A press records the cursor; a middle press also records the world point under it. */
  function MousePress(g: GlView, p: Point, button: MouseButton, scr: Screen): (r: GlView)
    ensures r.lastPos == Some(p)
    ensures button == MiddleButton ==> r.panStart == Some(scr.unproject(g.view, p.x as real, p.y as real))
    ensures button != MiddleButton ==> r.panStart == g.panStart
    ensures r.pose == g.pose && r.view == g.view && r.mapSize == g.mapSize
  {
    var g1 := g.(lastPos := Some(p));
    if button == MiddleButton then g1.(panStart := Some(scr.unproject(g.view, p.x as real, p.y as real)))
    else g1
  }

  /**
   * A move: without a recorded cursor nothing happens. A left drag tilts by
   * half the vertical motion (clamped) and orbits by half the horizontal
   * motion, compensating the pan offset by the centre point before minus
   * after; otherwise a middle drag pans x and y by the world motion between
   * the previous and the current cursor. Either way the cursor is recorded.
   */
  function MouseMove(g: GlView, p: Point, held: HeldButtons, scr: Screen): (r: GlView)
    ensures g.lastPos.None? ==> r == g
    ensures g.lastPos.Some? ==> r.lastPos == Some(p)
    ensures r.view == g.view && r.panStart == g.panStart && r.mapSize == g.mapSize
    ensures r.pose.distance == g.pose.distance && r.pose.roll == g.pose.roll
    ensures g.lastPos.Some? && held.left ==>
      var dx := (p.x - g.lastPos.value.x) as real;
      var dy := (p.y - g.lastPos.value.y) as real;
      && r.pose.tilt == ClampTilt(g.pose.tilt + dy * RotationSpeed)
      && r.pose.orbit == g.pose.orbit + dx * RotationSpeed
      && r.pose.position == g.pose.position
    ensures g.lastPos.Some? && !held.left && held.middle ==>
      var last := g.lastPos.value;
      var before := scr.unproject(g.view, last.x as real, last.y as real);
      var after := scr.unproject(g.view, p.x as real, p.y as real);
      && r.pose.position.x == g.pose.position.x - (after.x - before.x)
      && r.pose.position.y == g.pose.position.y - (after.y - before.y)
      && r.pose.position.z == g.pose.position.z
      && r.pose.tilt == g.pose.tilt && r.pose.orbit == g.pose.orbit
    ensures g.lastPos.Some? && !held.left && !held.middle ==> r == g.(lastPos := Some(p))
  {
    match g.lastPos
    case None => g
    case Some(last) =>
      var dx := (p.x - last.x) as real;
      var dy := (p.y - last.y) as real;
      var moved :=
        if held.left then
          var before := CentreOnPlane(g, scr);
          var turned := g.pose.(tilt := ClampTilt(g.pose.tilt + dy * RotationSpeed),
                                orbit := g.pose.orbit + dx * RotationSpeed);
          var after := CentreOnPlane(g.(pose := turned), scr);
          turned.(position := Add3(g.pose.position, Sub3(before, after)))
        else if held.middle then
          var before := scr.unproject(g.view, last.x as real, last.y as real);
          var after := scr.unproject(g.view, p.x as real, p.y as real);
          var q := g.pose.position;
          g.pose.(position := Vec3(q.x - (after.x - before.x), q.y - (after.y - before.y), q.z))
        else g.pose;
      g.(pose := moved, lastPos := Some(p))
  }

  /** A release forgets the cursor; a middle release also forgets the pan start. */
  function MouseRelease(g: GlView, button: MouseButton): (r: GlView)
    ensures r.lastPos == None
    ensures button == MiddleButton ==> r.panStart == None
    ensures button != MiddleButton ==> r.panStart == g.panStart
    ensures r.pose == g.pose && r.view == g.view && r.mapSize == g.mapSize
  {
    var g1 := g.(lastPos := None);
    if button == MiddleButton then g1.(panStart := None) else g1
  }

  /** After a release, moves change nothing until the next press. */
  lemma ReleaseThenMoveIsInert(g: GlView, button: MouseButton, p: Point, held: HeldButtons, scr: Screen)
    ensures MouseMove(MouseRelease(g, button), p, held, scr) == MouseRelease(g, button)
  {
  }

  /** A middle drag to a point and straight back, before any repaint, restores the pan offset. */
  lemma PanThereAndBack(g: GlView, p: Point, held: HeldButtons, scr: Screen)
    requires g.lastPos.Some? && !held.left && held.middle
    ensures MouseMove(MouseMove(g, p, held, scr), g.lastPos.value, held, scr).pose == g.pose
  {
  }

  /** Every gesture keeps the zoom within its limits and the tilt within [-89, 89]. */
  lemma GesturesKeepValid(g: GlView, scr: Screen, deltaY: int, p: Point, button: MouseButton, held: HeldButtons)
    requires Valid(g)
    ensures Valid(Wheel(g, deltaY, scr))
    ensures Valid(MousePress(g, p, button, scr))
    ensures Valid(MouseMove(g, p, held, scr))
    ensures Valid(MouseRelease(g, button))
    ensures Valid(Paint(g))
  {
  }

  // ---------------------------------------------------------------------------
  // Projection

  /** A 4x4 matrix as rows. */
  type Mat4 = seq<seq<real>>

  datatype Vec4 = Vec4(x: real, y: real, z: real, w: real)

  ghost predicate IsMat4(m: Mat4)
  {
    |m| == 4 && forall i :: 0 <= i < 4 ==> |m[i]| == 4
  }

  /** The entries the perspective formula sets; all others are zero. */
  predicate FormulaEntry(i: int, j: int)
  {
    (i == 0 && j == 0) || (i == 1 && j == 1) || (i == 2 && j == 2) || (i == 2 && j == 3) || (i == 3 && j == 2)
  }

  /** The focal factor `1 / tan(fovy / 2)`, the angle in degrees. */
  function Focal(fovy: real, trig: Trig): real
    requires trig.tan(Radians(fovy) / 2.0) != 0.0
  {
    1.0 / trig.tan(Radians(fovy) / 2.0)
  }

  /** The symmetric perspective projection for a vertical field of view, aspect ratio and clip planes. */
  function PerspectiveMatrix(fovy: real, aspect: real, near: real, far: real, trig: Trig): (m: Mat4)
    requires trig.tan(Radians(fovy) / 2.0) != 0.0 && aspect != 0.0 && near != far
    ensures IsMat4(m)
    ensures m[0][0] == Focal(fovy, trig) / aspect && m[1][1] == Focal(fovy, trig)
    ensures m[2][2] == (far + near) / (near - far) && m[2][3] == 2.0 * far * near / (near - far)
    ensures m[3][2] == -1.0
    ensures forall i, j :: 0 <= i < 4 && 0 <= j < 4 && !FormulaEntry(i, j) ==> m[i][j] == 0.0
  {
    var f := Focal(fovy, trig);
    [[f / aspect, 0.0, 0.0, 0.0],
     [0.0, f, 0.0, 0.0],
     [0.0, 0.0, (far + near) / (near - far), 2.0 * far * near / (near - far)],
     [0.0, 0.0, -1.0, 0.0]]
  }

  /** The matrix applied to a column vector. */
  function Apply(m: Mat4, v: Vec4): Vec4
    requires IsMat4(m)
  {
    Vec4(m[0][0] * v.x + m[0][1] * v.y + m[0][2] * v.z + m[0][3] * v.w,
         m[1][0] * v.x + m[1][1] * v.y + m[1][2] * v.z + m[1][3] * v.w,
         m[2][0] * v.x + m[2][1] * v.y + m[2][2] * v.z + m[2][3] * v.w,
         m[3][0] * v.x + m[3][1] * v.y + m[3][2] * v.z + m[3][3] * v.w)
  }

  /**
   * The near clip plane (eye depth -near) lands on normalised depth -1 and the
   * far plane (eye depth -far) on +1.
   */
  lemma DepthRangeMapsToUnitInterval(fovy: real, aspect: real, near: real, far: real, trig: Trig, x: real, y: real)
    requires trig.tan(Radians(fovy) / 2.0) != 0.0 && aspect != 0.0 && near != far
    requires near != 0.0 && far != 0.0
    ensures var m := PerspectiveMatrix(fovy, aspect, near, far, trig);
      var c := Apply(m, Vec4(x, y, -near, 1.0));
      c.w == near && c.z == -near
    ensures var m := PerspectiveMatrix(fovy, aspect, near, far, trig);
      var c := Apply(m, Vec4(x, y, -far, 1.0));
      c.w == far && c.z == far
  {
    var a := (far + near) / (near - far);
    var b := 2.0 * far * near / (near - far);
    assert (near - far) * a == far + near;
    assert (near - far) * b == 2.0 * far * near;
    assert (near - far) * (a * -near + b) == (near - far) * -near by {
      assert (near - far) * (a * -near + b) == ((near - far) * a) * -near + (near - far) * b;
    }
    assert (near - far) * (a * -far + b) == (near - far) * far by {
      assert (near - far) * (a * -far + b) == ((near - far) * a) * -far + (near - far) * b;
    }
  }

  /** A point on the upper edge of the field of view lands on normalised height +1. */
  lemma UpperEdgeMapsToOne(fovy: real, aspect: real, near: real, far: real, trig: Trig, x: real, depth: real)
    requires trig.tan(Radians(fovy) / 2.0) != 0.0 && aspect != 0.0 && near != far
    requires depth > 0.0
    ensures var m := PerspectiveMatrix(fovy, aspect, near, far, trig);
      var c := Apply(m, Vec4(x, depth * trig.tan(Radians(fovy) / 2.0), -depth, 1.0));
      c.y == c.w
  {
    var t := trig.tan(Radians(fovy) / 2.0);
    assert Focal(fovy, trig) * t == 1.0;
    assert Focal(fovy, trig) * (depth * t) == depth by {
      assert Focal(fovy, trig) * (depth * t) == (Focal(fovy, trig) * t) * depth;
    }
  }

  // ---------------------------------------------------------------------------
  // The last step of screen-to-world

  /** Divides by the homogeneous coordinate when it is non-zero. */
  function Dehomogenise(h: Vec4): (p: Vec3)
    ensures h.w != 0.0 ==> p.x * h.w == h.x && p.y * h.w == h.y && p.z * h.w == h.z
    ensures h.w == 0.0 ==> p == Vec3(h.x, h.y, h.z)
  {
    if h.w != 0.0 then Vec3(h.x / h.w, h.y / h.w, h.z / h.w) else Vec3(h.x, h.y, h.z)
  }

  /**
   * The "project onto the plane z = 0" step as written: with t = -z it adds
   * t times the point to the point, which scales the point by 1 - z.
   */
  function GroundPointAsWritten(h: Vec4): (r: Vec3)
    ensures r == Scale3(1.0 - Dehomogenise(h).z, Dehomogenise(h))
  {
    var p := Dehomogenise(h);
    if p.z != 0.0 then Add3(p, Scale3(-p.z, p)) else p
  }

  /** The step as written lands on the plane only when the point's height is 0 or 1. */
  lemma AsWrittenOnPlaneOnlyAtZeroOrOne(h: Vec4)
    ensures GroundPointAsWritten(h).z == 0.0 <==> Dehomogenise(h).z == 0.0 || Dehomogenise(h).z == 1.0
  {
    var z := Dehomogenise(h).z;
    assert GroundPointAsWritten(h).z == (1.0 - z) * z;
  }

  /** The point (1, 1, 2) is sent to (-1, -1, -2), two units below the plane. */
  lemma AsWrittenMissesPlane()
    ensures GroundPointAsWritten(Vec4(1.0, 1.0, 2.0, 1.0)) == Vec3(-1.0, -1.0, -2.0)
  {
  }

  /**
   * The intended step: where the line from the eye through the unprojected
   * point meets z = 0, or nothing when that line runs parallel to the plane.
   */
  function GroundIntersect(eye: Vec3, p: Vec3): (r: Option<Vec3>)
    ensures r.None? <==> eye.z == p.z
    ensures r.Some? ==> r.value.z == 0.0
    ensures r.Some? ==> r.value == Add3(eye, Scale3(eye.z / (eye.z - p.z), Sub3(p, eye)))
  {
    if eye.z == p.z then None
    else
      var t := eye.z / (eye.z - p.z);
      assert t * (p.z - eye.z) == -eye.z;
      Some(Add3(eye, Scale3(t, Sub3(p, eye))))
  }

  /** A point already on the plane is its own intersection, seen from any eye off the plane. */
  lemma GroundIntersectFixesPlanePoints(eye: Vec3, p: Vec3)
    requires p.z == 0.0 && eye.z != 0.0
    ensures GroundIntersect(eye, p) == Some(p)
  {
    assert eye.z / (eye.z - p.z) == 1.0;
    var r := GroundIntersect(eye, p).value;
    assert r == Add3(eye, Scale3(1.0, Sub3(p, eye)));
    assert r.x == p.x && r.y == p.y && r.z == p.z;
  }
}
