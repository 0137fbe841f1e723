/** The free-flight camera of basic_camera.h: a position, yaw/pitch/roll in
    degrees, a field of view (Zoom) and speeds, with discrete translate,
    rotate and zoom operations.  The orthonormal basis (Direction, Right,
    Up) is whatever `updateCameraVectors` derives from the three angles;
    that derivation is trigonometry plus normalisation, so it enters the
    model as a parameter `basis` of type `BasisOf`. */
module Camera {
  import opened Vectors

  /** Direction, Right and Up as produced by updateCameraVectors. */
  datatype Basis = Basis(direction: Vec3, right: Vec3, up: Vec3)

  /** updateCameraVectors as a function of (Yaw, Pitch, Roll). */
  type BasisOf = (real, real, real) -> Basis

  datatype BasicCamera = BasicCamera(
    position: Vec3,
    up: Vec3,
    direction: Vec3,
    right: Vec3,
    yaw: real,
    pitch: real,
    roll: real,
    zoom: real,
    mouseSensitivity: real,
    movementSpeed: real,
    rotationSpeed: real)

  const PitchLimit: real := 89.0
  const MinZoom: real := 1.0
  const MaxZoom: real := 45.0

  /** Reference definition of clamping `v` into [lo, hi]. */
  function Clamp(v: real, lo: real, hi: real): (r: real)
    requires lo <= hi
    ensures lo <= r <= hi
    ensures lo <= v <= hi ==> r == v
    ensures v < lo ==> r == lo
    ensures v > hi ==> r == hi
  {
    if v < lo then lo else if v > hi then hi else v
  }

  /** The basis vectors stored in `c` are the ones derived from its angles. */
  predicate Consistent(c: BasicCamera, basis: BasisOf) {
    var b := basis(c.yaw, c.pitch, c.roll);
    c.direction == b.direction && c.right == b.right && c.up == b.up
  }

  /** What the camera operations maintain: pitch within +-89 degrees, field
      of view within [1, 45] degrees, and a basis that matches the angles. */
  predicate Valid(c: BasicCamera, basis: BasisOf) {
    -PitchLimit <= c.pitch <= PitchLimit
    && MinZoom <= c.zoom <= MaxZoom
    && Consistent(c, basis)
  }

  /** updateCameraVectors: overwrite Direction, Right and Up. */
  function UpdateCameraVectors(c: BasicCamera, basis: BasisOf): BasicCamera {
    var b := basis(c.yaw, c.pitch, c.roll);
    c.(direction := b.direction, right := b.right, up := b.up)
  }

  /** The BasicCamera constructor.  The look-at point is accepted and never
      used; the up hint is stored and then overwritten by the basis. */
  function Create(posX: real, posY: real, posZ: real,
                  lookAtX: real, lookAtY: real, lookAtZ: real,
                  upVector: Vec3, basis: BasisOf): (c: BasicCamera)
    ensures c.position == Vec3(posX, posY, posZ)
    ensures c.yaw == -135.0 && c.pitch == -45.0 && c.roll == 0.0
    ensures c.movementSpeed == 1.0 && c.rotationSpeed == 30.0
    ensures c.mouseSensitivity == 0.1 && c.zoom == 45.0
    ensures Valid(c, basis)
  {
    var zero := Vec3(0.0, 0.0, 0.0);
    var c0 := BasicCamera(Vec3(posX, posY, posZ), upVector, zero, zero,
                          -135.0, -45.0, 0.0, 45.0, 0.1, 1.0, 30.0);
    UpdateCameraVectors(c0, basis)
  }

  /** The camera does not depend on the look-at arguments or the up hint. */
  lemma CreateIgnoresLookAt(posX: real, posY: real, posZ: real,
                            lookAt1: Vec3, lookAt2: Vec3, up1: Vec3, up2: Vec3,
                            basis: BasisOf)
    ensures Create(posX, posY, posZ, lookAt1.x, lookAt1.y, lookAt1.z, up1, basis)
         == Create(posX, posY, posZ, lookAt2.x, lookAt2.y, lookAt2.z, up2, basis)
  {
  }

  /** The keys ProcessKeyboard reacts to. */
  predicate IsMoveKey(ch: char) {
    ch == 'W' || ch == 'S' || ch == 'A' || ch == 'D' || ch == 'E' || ch == 'R'
  }

  /** The basis vectors a camera currently stores. */
  function BasisOfCamera(c: BasicCamera): Basis {
    Basis(c.direction, c.right, c.up)
  }

  const Zero: Vec3 := Vec3(0.0, 0.0, 0.0)

  /** Reference table of the displacement for each movement key at velocity
      `v`: forward/backward along Direction, right/left along Right,
      up/down along Up, nothing for any other key. */
  function Displacement(b: Basis, ch: char, v: real): Vec3 {
    if ch == 'W' then Scale(b.direction, v)
    else if ch == 'S' then Scale(b.direction, -v)
    else if ch == 'A' then Scale(b.right, -v)
    else if ch == 'D' then Scale(b.right, v)
    else if ch == 'E' then Scale(b.up, v)
    else if ch == 'R' then Scale(b.up, -v)
    else Zero
  }

  /** ProcessKeyboard: translate by MovementSpeed * dt along one of the
      basis vectors. */
  function ProcessKeyboard(c: BasicCamera, direction: char, deltaTime: real): (r: BasicCamera)
    ensures r == c.(position := r.position)
    ensures Sub(r.position, c.position) == Displacement(BasisOfCamera(c), direction, c.movementSpeed * deltaTime)
    ensures !IsMoveKey(direction) ==> r == c
  {
    var velocity := c.movementSpeed * deltaTime;
    if direction == 'W' then c.(position := Add(c.position, Scale(c.direction, velocity)))
    else if direction == 'S' then c.(position := Sub(c.position, Scale(c.direction, velocity)))
    else if direction == 'A' then c.(position := Sub(c.position, Scale(c.right, velocity)))
    else if direction == 'D' then c.(position := Add(c.position, Scale(c.right, velocity)))
    else if direction == 'E' then c.(position := Add(c.position, Scale(c.up, velocity)))
    else if direction == 'R' then c.(position := Sub(c.position, Scale(c.up, velocity)))
    else c
  }

  /** Moving forward and then backward for the same time step returns to the
      starting state (exact in real arithmetic). */
  lemma ForwardThenBackward(c: BasicCamera, dt: real)
    ensures ProcessKeyboard(ProcessKeyboard(c, 'W', dt), 'S', dt) == c
  {
  }

  /** `n` consecutive calls of ProcessKeyboard with the same key and step. */
  function MoveRepeatedly(c: BasicCamera, direction: char, dt: real, n: nat): BasicCamera
  {
    if n == 0 then c else ProcessKeyboard(MoveRepeatedly(c, direction, dt, n - 1), direction, dt)
  }

  /** Velocity integration is additive: n forward steps of dt move the camera
      by Direction * (n * MovementSpeed * dt) and change nothing else. */
  lemma {:induction false} RepeatedForward(c: BasicCamera, dt: real, n: nat)
    ensures var r := MoveRepeatedly(c, 'W', dt, n);
            r == c.(position := r.position)
            && Sub(r.position, c.position) == Scale(c.direction, (n as real) * c.movementSpeed * dt)
  {
    if n > 0 {
      RepeatedForward(c, dt, n - 1);
      var v := c.movementSpeed * dt;
      var k := (n - 1) as real * v;
      assert (n as real) * c.movementSpeed * dt == k + v;
    }
  }

  /** Sixty forward steps of 1/60 s at unit speed along -Z move the camera
      from z = 0 to z = -1. */
  lemma OneSecondForward(c: BasicCamera)
    requires c.movementSpeed == 1.0
    requires c.direction == Vec3(0.0, 0.0, -1.0)
    requires c.position.z == 0.0
    ensures MoveRepeatedly(c, 'W', 1.0 / 60.0, 60).position.z == -1.0
  {
    RepeatedForward(c, 1.0 / 60.0, 60);
  }

  /** ProcessRotation: turn by RotationSpeed * dt about one axis, clamp the
      pitch, then recompute the basis. */
  function ProcessRotation(c: BasicCamera, axis: char, deltaTime: real, basis: BasisOf): (r: BasicCamera)
    ensures -PitchLimit <= r.pitch <= PitchLimit
    ensures Consistent(r, basis)
    ensures r == c.(yaw := r.yaw, pitch := r.pitch, roll := r.roll,
                    direction := r.direction, right := r.right, up := r.up)
    ensures var a := c.rotationSpeed * deltaTime;
            && (axis == 'P' ==> r.pitch == Clamp(c.pitch + a, -PitchLimit, PitchLimit))
            && (axis == 'N' ==> r.pitch == Clamp(c.pitch - a, -PitchLimit, PitchLimit))
            && (axis != 'P' && axis != 'N' ==> r.pitch == Clamp(c.pitch, -PitchLimit, PitchLimit))
            && r.yaw == (if axis == 'Y' then c.yaw - a else if axis == 'H' then c.yaw + a else c.yaw)
            && r.roll == (if axis == 'R' then c.roll + a else if axis == 'L' then c.roll - a else c.roll)
  {
    var angle := c.rotationSpeed * deltaTime;
    var pitch := if axis == 'P' then c.pitch + angle else if axis == 'N' then c.pitch - angle else c.pitch;
    var yaw := if axis == 'Y' then c.yaw - angle else if axis == 'H' then c.yaw + angle else c.yaw;
    var roll := if axis == 'R' then c.roll + angle else if axis == 'L' then c.roll - angle else c.roll;
    var pitch1 := if pitch > 89.0 then 89.0 else pitch;
    var pitch2 := if pitch1 < -89.0 then -89.0 else pitch1;
    UpdateCameraVectors(c.(yaw := yaw, pitch := pitch2, roll := roll), basis)
  }

  /** The axes ProcessRotation reacts to. */
  predicate IsRotationAxis(ch: char) {
    ch == 'P' || ch == 'N' || ch == 'Y' || ch == 'H' || ch == 'R' || ch == 'L'
  }

  /** An unknown axis leaves the angles of an in-range camera alone but
      still brings the basis up to date with them. */
  lemma UnknownAxisKeepsAngles(c: BasicCamera, axis: char, dt: real, basis: BasisOf)
    requires !IsRotationAxis(axis)
    requires -PitchLimit <= c.pitch <= PitchLimit
    ensures var r := ProcessRotation(c, axis, dt, basis);
            r.yaw == c.yaw && r.pitch == c.pitch && r.roll == c.roll
            && r == UpdateCameraVectors(c, basis)
  {
  }

  /** Apply ProcessRotation for each (axis, dt) pair in turn. */
  function RotateAll(c: BasicCamera, steps: seq<(char, real)>, basis: BasisOf): BasicCamera
    decreases |steps|
  {
    if |steps| == 0 then c
    else RotateAll(ProcessRotation(c, steps[0].0, steps[0].1, basis), steps[1..], basis)
  }

  /** After any non-empty sequence of rotations the pitch is within +-89
      degrees and the basis matches the angles, whatever the start state. */
  lemma {:induction false} RotationsBoundPitch(c: BasicCamera, steps: seq<(char, real)>, basis: BasisOf)
    requires |steps| > 0
    ensures var r := RotateAll(c, steps, basis);
            -PitchLimit <= r.pitch <= PitchLimit && Consistent(r, basis)
            && r.position == c.position && r.zoom == c.zoom
    decreases |steps|
  {
    var c1 := ProcessRotation(c, steps[0].0, steps[0].1, basis);
    if |steps| > 1 {
      RotationsBoundPitch(c1, steps[1..], basis);
    }
  }

  /** ProcessMouseScroll: Zoom -= yoffset, then clamp into [1, 45]. */
  function ProcessMouseScroll(c: BasicCamera, yoffset: real): (r: BasicCamera)
    ensures r == c.(zoom := r.zoom)
    ensures MinZoom <= r.zoom <= MaxZoom
    ensures MinZoom <= c.zoom - yoffset <= MaxZoom ==> r.zoom == c.zoom - yoffset
    ensures c.zoom - yoffset < MinZoom ==> r.zoom == MinZoom
    ensures c.zoom - yoffset > MaxZoom ==> r.zoom == MaxZoom
  {
    var zoom := c.zoom - yoffset;
    var zoom1 := if zoom < 1.0 then 1.0 else zoom;
    var zoom2 := if zoom1 > 45.0 then 45.0 else zoom1;
    c.(zoom := zoom2)
  }

  /** Scrolling by zero from an in-range zoom changes nothing. */
  lemma ScrollByZeroIsIdentity(c: BasicCamera)
    requires MinZoom <= c.zoom <= MaxZoom
    ensures ProcessMouseScroll(c, 0.0) == c
  {
  }

  /** Apply ProcessMouseScroll for each offset in turn. */
  function ScrollAll(c: BasicCamera, offsets: seq<real>): BasicCamera
    decreases |offsets|
  {
    if |offsets| == 0 then c else ScrollAll(ProcessMouseScroll(c, offsets[0]), offsets[1..])
  }

  /** After any non-empty sequence of scroll events the field of view is in
      [1, 45], and only the zoom has changed. */
  lemma {:induction false} ScrollsBoundZoom(c: BasicCamera, offsets: seq<real>)
    requires |offsets| > 0
    ensures var r := ScrollAll(c, offsets);
            MinZoom <= r.zoom <= MaxZoom && r == c.(zoom := r.zoom)
    decreases |offsets|
  {
    var c1 := ProcessMouseScroll(c, offsets[0]);
    if |offsets| > 1 {
      ScrollsBoundZoom(c1, offsets[1..]);
    }
  }

  /** Every camera operation preserves Valid. */
  lemma OperationsPreserveValid(c: BasicCamera, ch: char, dt: real, yoffset: real, basis: BasisOf)
    requires Valid(c, basis)
    ensures Valid(ProcessKeyboard(c, ch, dt), basis)
    ensures Valid(ProcessRotation(c, ch, dt, basis), basis)
    ensures Valid(ProcessMouseScroll(c, yoffset), basis)
  {
  }
}
