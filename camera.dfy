// The third-person camera: yaw and pitch driven by the cursor, a viewing
// direction and a level right vector derived from them, a look-at point that
// trails the player with per-axis exponential smoothing, and the view and
// projection the renderer asks for.
//
// The matrices the vector library builds (`lookAt`, `perspective`) are kept as
// the arguments they are built from; `CameraState` is the value of all of a
// Camera's fields and the class methods are proved to perform the step
// functions over it.

module CameraModel {
  import opened Geometry
  import opened Numerics

  /** Radians of turn per pixel of cursor movement (the camera's `mouseSpeed`, never changed). */
  const MouseSpeed: real := 0.0008

  /** The pitch is kept within [-PitchLimit, PitchLimit], just short of straight up or down. */
  const PitchLimit: real := 1.55

  /**
    * Smoothing bases of the look-at point per axis (the camera's `power`, never
    * changed): y follows much faster than x and z.
    */
  const Power: Vec3 := Vec3(0.0002, 0.02, 0.0002)

  /** How far behind the look-at point, along the viewing direction, the eye sits. */
  const EyeDistance: real := 1.5

  /** Yaw (horizontal), pitch (vertical), the last cursor position, and whether none was seen yet. */
  datatype Aim = Aim(horizontal: real, vertical: real, lastX: real, lastY: real, first: bool)

  /** The aim of a new camera: facing yaw 3.14, level, cursor not yet seen. */
  const InitialAim: Aim := Aim(3.14, 0.0, 0.0, 0.0, true)

  /** A cursor position. */
  datatype Cursor = Cursor(x: real, y: real)

  /** `lookAt(eye, center, up)`: the view matrix, kept as its arguments. */
  datatype View = LookAt(eye: Vec3, center: Vec3, up: Vec3)

  /**
    * `perspective(fov, aspect, near, far)`, kept as its arguments; the aspect
    * ratio is None where the window height is 0 and the division has no value.
    */
  datatype Projection = Perspective(fovDegrees: real, aspect: Option<real>, near: real, far: real)

  /** The value of every field of a Camera. */
  datatype CameraState = CameraState(
    lookAt: Vec3,
    target: Vec3,
    aim: Aim,
    view: View,
    projection: Projection,
    right: Vec3,
    direction: Vec3)

  predicate PitchInRange(v: real) {
    -PitchLimit <= v <= PitchLimit
  }

  /** The pitch clamp: the result is in range, an in-range pitch is kept, any other goes to the nearer limit. */
  function ClampPitch(v: real): (r: real)
    ensures PitchInRange(r)
    ensures PitchInRange(v) ==> r == v
    ensures v > PitchLimit ==> r == PitchLimit
    ensures v < -PitchLimit ==> r == -PitchLimit
  {
    if v > PitchLimit then PitchLimit
    else if v < -PitchLimit then -PitchLimit
    else v
  }

  /**
    * One cursor sample. The first one is only recorded. Afterwards the yaw
    * and pitch grow by MouseSpeed times the cursor's movement to the left and
    * up, the pitch is clamped, and the sample is recorded.
    */
  function Turn(a: Aim, c: Cursor): (r: Aim)
    ensures r.lastX == c.x && r.lastY == c.y && !r.first
    ensures a.first ==> r.horizontal == a.horizontal && r.vertical == a.vertical
    ensures PitchInRange(r.vertical) <==> (a.first ==> PitchInRange(a.vertical))
    ensures !a.first ==> r.horizontal == a.horizontal + MouseSpeed * (a.lastX - c.x)
    ensures !a.first && PitchInRange(a.vertical + MouseSpeed * (a.lastY - c.y)) ==>
              r.vertical == a.vertical + MouseSpeed * (a.lastY - c.y)
    ensures !a.first && a.vertical + MouseSpeed * (a.lastY - c.y) > PitchLimit ==> r.vertical == PitchLimit
    ensures !a.first && a.vertical + MouseSpeed * (a.lastY - c.y) < -PitchLimit ==> r.vertical == -PitchLimit
  {
    if a.first then a.(lastX := c.x, lastY := c.y, first := false)
    else
      Aim(a.horizontal + MouseSpeed * (a.lastX - c.x),
          ClampPitch(a.vertical + MouseSpeed * (a.lastY - c.y)),
          c.x, c.y, false)
  }

  /** Cursor samples, one per frame, in order. */
  function TurnAll(a: Aim, cs: seq<Cursor>): Aim
    decreases |cs|
  {
    if cs == [] then a else TurnAll(Turn(a, cs[0]), cs[1..])
  }

  /** Whatever the cursor does, an in-range pitch stays in range. */
  lemma {:induction false} PitchStaysInRange(a: Aim, cs: seq<Cursor>)
    requires PitchInRange(a.vertical)
    ensures PitchInRange(TurnAll(a, cs).vertical)
    decreases |cs|
  {
    if cs != [] {
      PitchStaysInRange(Turn(a, cs[0]), cs[1..]);
    }
  }

  /**
    * The yaw is not clamped, so it telescopes: after any samples it has moved
    * by MouseSpeed times the cursor's total movement to the left since the
    * last recorded sample, and the last sample is recorded.
    */
  lemma {:induction false} YawTelescopes(a: Aim, cs: seq<Cursor>)
    requires !a.first
    ensures var r := TurnAll(a, cs);
            r.horizontal == a.horizontal + MouseSpeed * (a.lastX - r.lastX) &&
            r.lastX == (if cs == [] then a.lastX else cs[|cs| - 1].x)
    decreases |cs|
  {
    if cs != [] {
      var b := Turn(a, cs[0]);
      YawTelescopes(b, cs[1..]);
      if cs[1..] != [] {
        assert cs[1..][|cs[1..]| - 1] == cs[|cs| - 1];
      }
    }
  }

  /**
    * For a camera that has not seen the cursor yet, the yaw after a run of
    * samples depends only on the first and the last of them.
    */
  lemma YawFromFirstToLast(a: Aim, cs: seq<Cursor>)
    requires a.first && |cs| >= 1
    ensures TurnAll(a, cs).horizontal == a.horizontal + MouseSpeed * (cs[0].x - cs[|cs| - 1].x)
  {
    var b := Turn(a, cs[0]);
    YawTelescopes(b, cs[1..]);
    if cs[1..] != [] {
      assert cs[1..][|cs[1..]| - 1] == cs[|cs| - 1];
    }
  }

  /**
    * The viewing direction for a pitch and yaw, normalised. sin, cos and
    * normalize are the library's, so nothing is promised about the result here.
    */
  function Heading(lib: Library, vertical: real, horizontal: real): Vec3 {
    lib.normalize(Vec3(lib.cos(vertical) * lib.sin(horizontal),
                       lib.sin(vertical),
                       lib.cos(vertical) * lib.cos(horizontal)))
  }

  /**
    * A cursor sample: the aim turns; after the first sample the direction is
    * recomputed from it and the right vector is the normalised direction x up.
    */
  function Rotated(s: CameraState, c: Cursor, lib: Library): (r: CameraState)
    ensures !r.aim.first && r.aim.lastX == c.x && r.aim.lastY == c.y
    ensures s.aim.first ==> r == s.(aim := r.aim) &&
                            r.aim.horizontal == s.aim.horizontal && r.aim.vertical == s.aim.vertical
    ensures !s.aim.first ==>
              PitchInRange(r.aim.vertical) &&
              r.aim.horizontal == s.aim.horizontal + MouseSpeed * (s.aim.lastX - c.x)
  {
    var a := Turn(s.aim, c);
    if s.aim.first then s.(aim := a)
    else
      var d := Heading(lib, a.vertical, a.horizontal);
      s.(aim := a, direction := d, right := lib.normalize(Cross(d, Up)))
  }

  /**
    * After any sample but the first, the direction follows the new angles and
    * the right vector is the normalised level perpendicular (-d.z, 0, d.x) of
    * the direction, so it is level when normalising keeps a level vector
    * level and the direction is not straight up or down. The first sample
    * moves neither.
    */
  lemma RotationFrames(s: CameraState, c: Cursor, lib: Library)
    ensures var r := Rotated(s, c, lib);
            if s.aim.first then r.direction == s.direction && r.right == s.right
            else
              r.direction == Heading(lib, r.aim.vertical, r.aim.horizontal) &&
              r.right == lib.normalize(Vec3(-r.direction.z, 0.0, r.direction.x)) &&
              (NormalizeKeepsLevel(lib.normalize) && (r.direction.x != 0.0 || r.direction.z != 0.0) ==>
                 r.right.y == 0.0)
    ensures var r := Rotated(s, c, lib);
            r.lookAt == s.lookAt && r.target == s.target && r.view == s.view && r.projection == s.projection
  {
    if !s.aim.first {
      var a := Turn(s.aim, c);
      var d := Heading(lib, a.vertical, a.horizontal);
      CrossUp(d);
    }
  }

  /** The smoothing factors pow(power, dt), per axis. */
  function DecayFactors(lib: Library, dt: real): Vec3 {
    Vec3(lib.pow(Power.x, dt), lib.pow(Power.y, dt), lib.pow(Power.z, dt))
  }

  /**
    * Per-axis exponential smoothing toward the target: with factors in [0, 1]
    * each coordinate lands between the current value and the target; factors
    * of 1 keep the point; a point at its target stays there.
    */
  function Approach(current: Vec3, target: Vec3, k: Vec3): (r: Vec3)
    ensures 0.0 <= k.x <= 1.0 && 0.0 <= k.y <= 1.0 && 0.0 <= k.z <= 1.0 ==>
              Between(current.x, r.x, target.x) && Between(current.y, r.y, target.y) &&
              Between(current.z, r.z, target.z)
    ensures k == Vec3(1.0, 1.0, 1.0) ==> r == current
    ensures current == target ==> r == target
  {
    Vec3(Smooth(current.x, target.x, k.x), Smooth(current.y, target.y, k.y), Smooth(current.z, target.z, k.z))
  }


  /** The player's position becomes the target and the look-at point moves toward it. */
  function Followed(s: CameraState, pos: Vec3, dt: real, lib: Library): (r: CameraState)
    ensures r == s.(target := pos, lookAt := r.lookAt)
    ensures s.lookAt == pos ==> r.lookAt == pos
  {
    s.(target := pos, lookAt := Approach(s.lookAt, pos, DecayFactors(lib, dt)))
  }

  /**
    * Following the player never overshoots: for a non-negative frame time
    * each coordinate of the look-at point ends between where it was and the
    * player's; with no time passed it does not move. Nothing else changes.
    */
  lemma FollowStaysBetween(s: CameraState, pos: Vec3, dt: real, lib: Library)
    requires PowDecays(lib.pow) && dt >= 0.0
    ensures var r := Followed(s, pos, dt, lib);
            r.target == pos &&
            Between(s.lookAt.x, r.lookAt.x, pos.x) && Between(s.lookAt.y, r.lookAt.y, pos.y) &&
            Between(s.lookAt.z, r.lookAt.z, pos.z)
    ensures PowZeroIsOne(lib.pow) && dt == 0.0 ==> Followed(s, pos, dt, lib).lookAt == s.lookAt
    ensures var r := Followed(s, pos, dt, lib);
            r.aim == s.aim && r.direction == s.direction && r.right == s.right &&
            r.view == s.view && r.projection == s.projection
  {
    var k := DecayFactors(lib, dt);
    assert 0.0 <= k.x <= 1.0 && 0.0 <= k.y <= 1.0 && 0.0 <= k.z <= 1.0;
  }

  /** The eye: EyeDistance behind the look-at point along the viewing direction. */
  function Eye(lookAt: Vec3, direction: Vec3): (r: Vec3)
    ensures Add(r, Scale(direction, EyeDistance)) == lookAt
  {
    Sub(lookAt, Scale(direction, EyeDistance))
  }

  /** With a unit viewing direction the eye is exactly EyeDistance from the look-at point. */
  lemma EyeAtDistance(lookAt: Vec3, direction: Vec3)
    requires Dot(direction, direction) == 1.0
    ensures var offset := Sub(lookAt, Eye(lookAt, direction));
            Dot(offset, offset) == EyeDistance * EyeDistance
  {
    var offset := Sub(lookAt, Eye(lookAt, direction));
    assert offset == Scale(direction, EyeDistance);
    assert Dot(offset, offset) == EyeDistance * EyeDistance * Dot(direction, direction);
  }

  /** The view from the eye to the look-at point, with world-up as up. */
  function ViewOf(s: CameraState): (v: View)
    ensures v.center == s.lookAt && v.up == Up
    ensures Add(v.eye, Scale(s.direction, EyeDistance)) == s.lookAt
  {
    LookAt(Eye(s.lookAt, s.direction), s.lookAt, Up)
  }

  /**
    * `(float) width / height`: None for a zero height, otherwise the ratio,
    * positive for a window of positive size.
    */
  function AspectRatio(width: int, height: int): (r: Option<real>)
    ensures r.Some? <==> height != 0
    ensures r.Some? ==> r.value * height as real == width as real
    ensures width > 0 && height > 0 ==> r.Some? && r.value > 0.0
  {
    if height == 0 then None else Some(width as real / height as real)
  }

  /** A 70 degree vertical field of view, near plane 0.1, far plane 100. */
  function PerspectiveFor(aspect: Option<real>): Projection {
    Perspective(70.0, aspect, 0.1, 100.0)
  }

  /** The projection a new camera starts with: a 16:9 window. */
  const InitialProjection: Projection := PerspectiveFor(Some(16.0 / 9.0))

  /** The initial projection is the one every 16:9 window gets on resize. */
  lemma InitialProjectionIsSixteenByNine(width: int, height: int)
    requires height > 0 && 9 * width == 16 * height
    ensures PerspectiveFor(AspectRatio(width, height)) == InitialProjection
  {
    assert width as real == 16.0 / 9.0 * height as real;
    assert width as real / height as real == 16.0 / 9.0;
  }

  class Camera {
    var lookAtPosition: Vec3
    var targetPosition: Vec3

    var verticalAngle: real
    var horizontalAngle: real

    var lastX: real
    var lastY: real

    /** True until the first cursor sample is recorded. */
    var firstMouseMovement: bool

    var V: View
    var P: Projection

    var right: Vec3
    var direction: Vec3

    /** The pitch never leaves [-1.55, 1.55]. */
    ghost predicate Valid()
      reads this
    {
      PitchInRange(verticalAngle)
    }

    /** All fields, as a value. */
    function State(): CameraState
      reads this
    {
      CameraState(lookAtPosition, targetPosition,
                  Aim(horizontalAngle, verticalAngle, lastX, lastY, firstMouseMovement),
                  V, P, right, direction)
    }

    /**
      * A new camera: the initial aim and the 16:9 projection. The fields the
      * source leaves uninitialised are parameters.
      */
    constructor (lookAt0: Vec3, target0: Vec3, view0: View, right0: Vec3, direction0: Vec3)
      ensures Valid()
      ensures State() == CameraState(lookAt0, target0, InitialAim, view0, InitialProjection, right0, direction0)
    {
      lookAtPosition := lookAt0;
      targetPosition := target0;
      verticalAngle := 0.0;
      horizontalAngle := 3.14;
      lastX := 0.0;
      lastY := 0.0;
      firstMouseMovement := true;
      V := view0;
      P := PerspectiveFor(Some(16.0 / 9.0));
      right := right0;
      direction := direction0;
    }

    /** One cursor sample: record the first; otherwise turn, clamp the pitch, recompute direction and right. */
    method UpdateRotation(x: real, y: real, lib: Library)
      requires Valid()
      modifies this
      ensures Valid()
      ensures State() == Rotated(old(State()), Cursor(x, y), lib)
    {
      if firstMouseMovement {
        lastX := x;
        lastY := y;
        firstMouseMovement := false;
        return;
      }

      TurnBy(x, y);
      direction := Heading(lib, verticalAngle, horizontalAngle);
      right := lib.normalize(Cross(direction, Up));
    }

    /** Accumulates the cursor movement into yaw and pitch, records the sample and clamps the pitch. */
    method TurnBy(x: real, y: real)
      requires !firstMouseMovement
      modifies this
      ensures State() == old(State()).(aim := Turn(old(State()).aim, Cursor(x, y)))
    {
      horizontalAngle := horizontalAngle + MouseSpeed * (lastX - x);
      verticalAngle := verticalAngle + MouseSpeed * (lastY - y);

      lastX := x;
      lastY := y;

      if verticalAngle > PitchLimit {
        verticalAngle := PitchLimit;
      } else if verticalAngle < -PitchLimit {
        verticalAngle := -PitchLimit;
      }
    }

    /** The player's position becomes the target; the look-at point moves toward it per axis. */
    method UpdateLookingPosition(pos: Vec3, deltaTime: real, lib: Library)
      modifies this
      ensures State() == Followed(old(State()), pos, deltaTime, lib)
    {
      targetPosition := pos;
      lookAtPosition := Add(lookAtPosition, Mul(Sub(targetPosition, lookAtPosition),
        Vec3(1.0 - lib.pow(Power.x, deltaTime), 1.0 - lib.pow(Power.y, deltaTime),
             1.0 - lib.pow(Power.z, deltaTime))));
    }

    /** The stored projection. */
    method GetProjectionMatrix() returns (p: Projection)
      ensures p == P
    {
      return P;
    }

    /** Rebuilds the view from the current look-at point and direction, stores it and returns it. */
    method GetViewMatrix() returns (v: View)
      modifies this`V
      ensures v == V && State() == old(State()).(view := ViewOf(old(State())))
    {
      V := LookAt(Sub(lookAtPosition, Scale(direction, 1.5)), lookAtPosition, Vec3(0.0, 1.0, 0.0));
      return V;
    }

    /** A resized window: the projection is rebuilt with the window's aspect ratio. */
    method UpdateProjectionMatrix(width: int, height: int)
      modifies this`P
      ensures State() == old(State()).(projection := PerspectiveFor(AspectRatio(width, height)))
    {
      P := Perspective(70.0, if height == 0 then None else Some(width as real / height as real), 0.1, 100.0);
    }
  }
}
