/** The per-frame application state of main.cpp: the scene translation and
    rotation driven by the keyboard, the fan animation, the light switches
    and the camera; `processInput`, the fan update of the render loop and
    the scroll callback as pure state transitions. */
module App {
  import opened Vectors
  import opened Camera

  /** The keys processInput polls (GLFW_KEY_*). */
  datatype Key =
    | Escape | KeyG
    | KeyI | KeyK | KeyJ | KeyL | KeyO | KeyP
    | KeyX | KeyY | KeyZ
    | KeyW | KeyS | KeyA | KeyD | KeyE | KeyR
    | ArrowUp | ArrowDown | ArrowLeft | ArrowRight
    | Digit1 | Digit2 | Digit3 | Digit4 | Digit5 | Digit6 | Digit7

  /** The light switches handed to the shader. */
  datatype Lights = Lights(
    directional: bool, point1: bool, point2: bool, spot: bool,
    emissive: bool, ambient: bool, diffuse: bool, specular: bool)

  datatype AppState = AppState(
    camera: BasicCamera,
    translateX: real, translateY: real, translateZ: real,
    rotateAngleX: real, rotateAngleY: real, rotateAngleZ: real,
    fanAngle: real,
    fanRotating: bool,
    lights: Lights,
    closeRequested: bool)

  /** Scene translation step per frame and key. */
  const TranslateStep: real := 0.01
  /** Scene rotation step (degrees) per frame and key. */
  const RotateStep: real := 0.2
  /** Fan speed in degrees per second. */
  const FanSpeed: real := 200.0

  /** The globals as main.cpp initialises them. */
  function Initial(basis: BasisOf): (s: AppState)
    ensures Invariant(s, basis)
    ensures !s.fanRotating && s.fanAngle == 0.0 && !s.closeRequested
    ensures s.camera.position == Vec3(3.0, 3.0, 3.0)
    ensures s.translateX == 0.0 && s.translateY == 0.0 && s.translateZ == 0.0
    ensures s.rotateAngleX == 0.0 && s.rotateAngleY == 0.0 && s.rotateAngleZ == 0.0
    ensures var l := s.lights;
            l.directional && l.point1 && l.point2 && l.spot && l.emissive
            && l.ambient && l.diffuse && l.specular
  {
    AppState(
      Create(3.0, 3.0, 3.0, 0.0, 0.0, 0.0, Vec3(0.0, 1.0, 0.0), basis),
      0.0, 0.0, 0.0,
      0.0, 0.0, 0.0,
      0.0, false,
      Lights(true, true, true, true, true, true, true, true),
      false)
  }

  /** What every frame and every scroll event keeps: a valid camera and a
      fan angle within one turn. */
  predicate Invariant(s: AppState, basis: BasisOf) {
    Valid(s.camera, basis) && 0.0 <= s.fanAngle <= 360.0
  }

  function Toggle(b: bool, pressed: set<Key>, k: Key): bool {
    if k in pressed then !b else b
  }

  /** `x` when `plus` is held, minus `x` when `minus` is held, zero when
      both or neither are. */
  function Net(pressed: set<Key>, plus: Key, minus: Key, x: real): real {
    (if plus in pressed then x else 0.0) - (if minus in pressed then x else 0.0)
  }

  /** A key together with the character processInput forwards to the camera
      while that key is held. */
  type Binding = (Key, char)

  /** The movement keys, in the order processInput polls them. */
  const MoveBindings: seq<Binding> :=
    [(KeyW, 'W'), (KeyS, 'S'), (KeyA, 'A'), (KeyD, 'D'), (KeyE, 'E'), (KeyR, 'R')]

  /** The rotation keys, in the order processInput polls them: the arrows
      pitch and yaw, 1 rolls counter-clockwise and 3 rolls clockwise. */
  const RotateBindings: seq<Binding> :=
    [(ArrowUp, 'P'), (ArrowDown, 'N'), (ArrowLeft, 'Y'), (ArrowRight, 'H'), (Digit1, 'L'), (Digit3, 'R')]

  /** The summed displacement of every held binding. */
  function SumMoves(b: Basis, speed: real, dt: real, pressed: set<Key>, bindings: seq<Binding>): Vec3
    decreases |bindings|
  {
    if |bindings| == 0 then Zero
    else Add(HeldMove(b, speed * dt, pressed, bindings[0]), SumMoves(b, speed, dt, pressed, bindings[1..]))
  }

  /** The displacement of one binding: its key's Displacement when held. */
  function HeldMove(b: Basis, v: real, pressed: set<Key>, binding: Binding): Vec3 {
    if binding.0 in pressed then Displacement(b, binding.1, v) else Zero
  }

  /** Forward each held binding to ProcessKeyboard, in order. */
  function MoveKeys(c: BasicCamera, pressed: set<Key>, bindings: seq<Binding>, dt: real): BasicCamera
    decreases |bindings|
  {
    if |bindings| == 0 then c
    else
      var c1 := if bindings[0].0 in pressed then ProcessKeyboard(c, bindings[0].1, dt) else c;
      MoveKeys(c1, pressed, bindings[1..], dt)
  }

  /** Holding several movement keys moves the camera by the sum of their
      displacements, all taken in the basis of the frame's start, and
      changes nothing but the position. */
  lemma {:induction false} MoveKeysDisplacement(c: BasicCamera, pressed: set<Key>, bindings: seq<Binding>, dt: real)
    ensures var r := MoveKeys(c, pressed, bindings, dt);
            r == c.(position := r.position)
            && Sub(r.position, c.position)
               == SumMoves(BasisOfCamera(c), c.movementSpeed, dt, pressed, bindings)
    decreases |bindings|
  {
    if |bindings| > 0 {
      var c1 := if bindings[0].0 in pressed then ProcessKeyboard(c, bindings[0].1, dt) else c;
      if bindings[0].0 in pressed {
        StepMatches(c, bindings[0].1, dt);
      }
      MoveKeysDisplacement(c1, pressed, bindings[1..], dt);
      MoveStep(c, c1, MoveKeys(c1, pressed, bindings[1..], dt), pressed, bindings, dt);
    }
  }

  /** The displacement of one ProcessKeyboard call, with nothing else
      changed. */
  lemma StepMatches(c: BasicCamera, ch: char, dt: real)
    ensures var r := ProcessKeyboard(c, ch, dt);
            r == c.(position := r.position)
            && Sub(r.position, c.position) == Displacement(BasisOfCamera(c), ch, c.movementSpeed * dt)
  {
  }

  /** One step of MoveKeysDisplacement: a first move followed by the rest. */
  lemma MoveStep(c: BasicCamera, c1: BasicCamera, r: BasicCamera, pressed: set<Key>, bindings: seq<Binding>, dt: real)
    requires |bindings| > 0
    requires c1 == c.(position := c1.position)
    requires Sub(c1.position, c.position) == HeldMove(BasisOfCamera(c), c.movementSpeed * dt, pressed, bindings[0])
    requires r == c1.(position := r.position)
    requires Sub(r.position, c1.position) == SumMoves(BasisOfCamera(c1), c1.movementSpeed, dt, pressed, bindings[1..])
    ensures r == c.(position := r.position)
    ensures Sub(r.position, c.position) == SumMoves(BasisOfCamera(c), c.movementSpeed, dt, pressed, bindings)
  {
    assert BasisOfCamera(c1) == BasisOfCamera(c) && c1.movementSpeed == c.movementSpeed;
    SubChain(c.position, c1.position, r.position);
  }

  lemma SubChain(p0: Vec3, p1: Vec3, p2: Vec3)
    ensures Sub(p2, p0) == Add(Sub(p1, p0), Sub(p2, p1))
  {
  }

  /** Reference table of the yaw and roll change of one ProcessRotation
      call turning by `speed * dt` degrees. */
  function YawDelta(ch: char, speed: real, dt: real): real {
    if ch == 'H' then speed * dt else if ch == 'Y' then -(speed * dt) else 0.0
  }

  function RollDelta(ch: char, speed: real, dt: real): real {
    if ch == 'R' then speed * dt else if ch == 'L' then -(speed * dt) else 0.0
  }

  /** Total yaw change of the held bindings. */
  function YawTurn(pressed: set<Key>, bindings: seq<Binding>, speed: real, dt: real): real
    decreases |bindings|
  {
    if |bindings| == 0 then 0.0
    else (if bindings[0].0 in pressed then YawDelta(bindings[0].1, speed, dt) else 0.0)
         + YawTurn(pressed, bindings[1..], speed, dt)
  }

  /** Total roll change of the held bindings. */
  function RollTurn(pressed: set<Key>, bindings: seq<Binding>, speed: real, dt: real): real
    decreases |bindings|
  {
    if |bindings| == 0 then 0.0
    else (if bindings[0].0 in pressed then RollDelta(bindings[0].1, speed, dt) else 0.0)
         + RollTurn(pressed, bindings[1..], speed, dt)
  }

  /** Reference table of the pitch change of one ProcessRotation call
      turning by `speed * dt` degrees, before the clamp. */
  function PitchDelta(ch: char, speed: real, dt: real): real {
    if ch == 'P' then speed * dt else if ch == 'N' then -(speed * dt) else 0.0
  }

  /** The pitch after the held bindings, clamped after each one: every
      ProcessRotation call clamps, whatever its axis. */
  function PitchAfter(p: real, pressed: set<Key>, bindings: seq<Binding>, speed: real, dt: real): real
    decreases |bindings|
  {
    if |bindings| == 0 then p
    else
      var p1 := if bindings[0].0 in pressed then Clamp(p + PitchDelta(bindings[0].1, speed, dt), -PitchLimit, PitchLimit) else p;
      PitchAfter(p1, pressed, bindings[1..], speed, dt)
  }

  /** One of the six camera-rotation keys is held. */
  predicate RotationKeyHeld(pressed: set<Key>) {
    ArrowUp in pressed || ArrowDown in pressed || ArrowLeft in pressed
    || ArrowRight in pressed || Digit1 in pressed || Digit3 in pressed
  }

  /** Some key of `bindings` is held. */
  predicate AnyHeld(pressed: set<Key>, bindings: seq<Binding>)
    decreases |bindings|
  {
    |bindings| > 0 && (bindings[0].0 in pressed || AnyHeld(pressed, bindings[1..]))
  }

  /** Forward each held binding to ProcessRotation, in order. */
  function RotateKeys(c: BasicCamera, pressed: set<Key>, bindings: seq<Binding>, dt: real, basis: BasisOf): BasicCamera
    decreases |bindings|
  {
    if |bindings| == 0 then c
    else
      var c1 := if bindings[0].0 in pressed then ProcessRotation(c, bindings[0].1, dt, basis) else c;
      RotateKeys(c1, pressed, bindings[1..], dt, basis)
  }

  /** Holding several rotation keys adds up their yaw and roll changes,
      leaves the position, zoom and speeds alone, and -- as soon as one of
      them is held -- leaves the pitch clamped and the basis up to date. */
  lemma {:induction false} RotateKeysEffect(c: BasicCamera, pressed: set<Key>, bindings: seq<Binding>,
                                            dt: real, basis: BasisOf)
    ensures var r := RotateKeys(c, pressed, bindings, dt, basis);
            && r.position == c.position && r.zoom == c.zoom
            && r.movementSpeed == c.movementSpeed && r.rotationSpeed == c.rotationSpeed
            && r.mouseSensitivity == c.mouseSensitivity
            && r.yaw == c.yaw + YawTurn(pressed, bindings, c.rotationSpeed, dt)
            && r.roll == c.roll + RollTurn(pressed, bindings, c.rotationSpeed, dt)
            && r.pitch == PitchAfter(c.pitch, pressed, bindings, c.rotationSpeed, dt)
            && (AnyHeld(pressed, bindings) ==> -PitchLimit <= r.pitch <= PitchLimit && Consistent(r, basis))
            && (!AnyHeld(pressed, bindings) ==> r == c)
    decreases |bindings|
  {
    if |bindings| > 0 {
      var held, ch := bindings[0].0 in pressed, bindings[0].1;
      var c1 := if held then ProcessRotation(c, ch, dt, basis) else c;
      assert c1.rotationSpeed == c.rotationSpeed;
      assert c1.yaw == c.yaw + (if held then YawDelta(ch, c.rotationSpeed, dt) else 0.0);
      assert c1.roll == c.roll + (if held then RollDelta(ch, c.rotationSpeed, dt) else 0.0);
      assert c1.pitch == if held then Clamp(c.pitch + PitchDelta(ch, c.rotationSpeed, dt), -PitchLimit, PitchLimit) else c.pitch;
      RotateKeysEffect(c1, pressed, bindings[1..], dt, basis);
    }
  }

  /** The camera part of processInput: movement keys, then rotation keys. */
  function CameraInput(c: BasicCamera, pressed: set<Key>, dt: real, basis: BasisOf): (r: BasicCamera)
    ensures Sub(r.position, c.position) == SumMoves(BasisOfCamera(c), c.movementSpeed, dt, pressed, MoveBindings)
    ensures r.yaw == c.yaw + YawTurn(pressed, RotateBindings, c.rotationSpeed, dt)
    ensures r.roll == c.roll + RollTurn(pressed, RotateBindings, c.rotationSpeed, dt)
    ensures r.pitch == PitchAfter(c.pitch, pressed, RotateBindings, c.rotationSpeed, dt)
    ensures AnyHeld(pressed, RotateBindings) ==> -PitchLimit <= r.pitch <= PitchLimit && Consistent(r, basis)
    ensures !AnyHeld(pressed, RotateBindings) ==> r == c.(position := r.position)
    ensures r.zoom == c.zoom && r.mouseSensitivity == c.mouseSensitivity
    ensures r.movementSpeed == c.movementSpeed && r.rotationSpeed == c.rotationSpeed
  {
    var moved := MoveKeys(c, pressed, MoveBindings, dt);
    MoveKeysDisplacement(c, pressed, MoveBindings, dt);
    RotateKeysEffect(moved, pressed, RotateBindings, dt, basis);
    RotatedPitch(c, moved, pressed, RotateBindings, dt, basis);
    RotateKeys(moved, pressed, RotateBindings, dt, basis)
  }

  /** Rotating a camera that shares c's pitch and rotation speed ends at
      PitchAfter from c's pitch. */
  lemma RotatedPitch(c: BasicCamera, moved: BasicCamera, pressed: set<Key>, bindings: seq<Binding>, dt: real, basis: BasisOf)
    requires moved.pitch == c.pitch && moved.rotationSpeed == c.rotationSpeed
    ensures RotateKeys(moved, pressed, bindings, dt, basis).pitch == PitchAfter(c.pitch, pressed, bindings, c.rotationSpeed, dt)
  {
    RotateKeysEffect(moved, pressed, bindings, dt, basis);
  }

  /** The scene-transform part of processInput: I/K, L/J, O/P translate by
      0.01 and X, Y, Z rotate by 0.2 degrees. */
  function SceneInput(s: AppState, pressed: set<Key>): (r: AppState)
    ensures r.translateX == s.translateX + Net(pressed, KeyL, KeyJ, TranslateStep)
    ensures r.translateY == s.translateY + Net(pressed, KeyI, KeyK, TranslateStep)
    ensures r.translateZ == s.translateZ + Net(pressed, KeyO, KeyP, TranslateStep)
    ensures r.rotateAngleX == s.rotateAngleX + (if KeyX in pressed then RotateStep else 0.0)
    ensures r.rotateAngleY == s.rotateAngleY + (if KeyY in pressed then RotateStep else 0.0)
    ensures r.rotateAngleZ == s.rotateAngleZ + (if KeyZ in pressed then RotateStep else 0.0)
    ensures r == s.(translateX := r.translateX, translateY := r.translateY, translateZ := r.translateZ,
                    rotateAngleX := r.rotateAngleX, rotateAngleY := r.rotateAngleY,
                    rotateAngleZ := r.rotateAngleZ)
  {
    s.(translateX := Shift(s.translateX, pressed, KeyL, KeyJ),
       translateY := Shift(s.translateY, pressed, KeyI, KeyK),
       translateZ := Shift(s.translateZ, pressed, KeyO, KeyP),
       rotateAngleX := if KeyX in pressed then s.rotateAngleX + RotateStep else s.rotateAngleX,
       rotateAngleY := if KeyY in pressed then s.rotateAngleY + RotateStep else s.rotateAngleY,
       rotateAngleZ := if KeyZ in pressed then s.rotateAngleZ + RotateStep else s.rotateAngleZ)
  }

  /** One translate coordinate: `+= 0.01` when `plus` is held, then
      `-= 0.01` when `minus` is held. */
  function Shift(v: real, pressed: set<Key>, plus: Key, minus: Key): (r: real)
    ensures r == v + Net(pressed, plus, minus, TranslateStep)
  {
    var v1 := if plus in pressed then v + TranslateStep else v;
    if minus in pressed then v1 - TranslateStep else v1
  }

  /** The light switches of processInput: digits 1 to 7; nothing switches
      the emissive light. */
  function LightInput(l: Lights, pressed: set<Key>): (r: Lights)
    ensures r.directional == (l.directional != (Digit1 in pressed))
    ensures r.point1 == (l.point1 != (Digit2 in pressed))
    ensures r.point2 == (l.point2 != (Digit3 in pressed))
    ensures r.spot == (l.spot != (Digit4 in pressed))
    ensures r.ambient == (l.ambient != (Digit5 in pressed))
    ensures r.diffuse == (l.diffuse != (Digit6 in pressed))
    ensures r.specular == (l.specular != (Digit7 in pressed))
    ensures r.emissive == l.emissive
  {
    l.(directional := Toggle(l.directional, pressed, Digit1),
       point1 := Toggle(l.point1, pressed, Digit2),
       point2 := Toggle(l.point2, pressed, Digit3),
       spot := Toggle(l.spot, pressed, Digit4),
       ambient := Toggle(l.ambient, pressed, Digit5),
       diffuse := Toggle(l.diffuse, pressed, Digit6),
       specular := Toggle(l.specular, pressed, Digit7))
  }

  /** processInput: the state change caused by the keys held this frame. */
  function ProcessInput(s: AppState, pressed: set<Key>, dt: real, basis: BasisOf): (r: AppState)
    ensures r.closeRequested == (s.closeRequested || Escape in pressed)
    ensures r.fanRotating == (s.fanRotating != (KeyG in pressed))
    ensures r.fanAngle == s.fanAngle
    ensures r.lights == LightInput(s.lights, pressed)
    ensures r.camera == CameraInput(s.camera, pressed, dt, basis)
    ensures var t := SceneInput(s, pressed);
            && r.translateX == t.translateX && r.translateY == t.translateY && r.translateZ == t.translateZ
            && r.rotateAngleX == t.rotateAngleX && r.rotateAngleY == t.rotateAngleY
            && r.rotateAngleZ == t.rotateAngleZ
  {
    var close := if Escape in pressed then true else s.closeRequested;
    var fanRotating := Toggle(s.fanRotating, pressed, KeyG);
    var t := SceneInput(s, pressed);
    t.(camera := CameraInput(s.camera, pressed, dt, basis),
       fanRotating := fanRotating,
       lights := LightInput(s.lights, pressed),
       closeRequested := close)
  }

  /** The rotation bindings add up to: right arrow minus left arrow in yaw,
      key 3 minus key 1 in roll; they act exactly when one of the six keys
      is held. */
  lemma RotateBindingsTurns(pressed: set<Key>, speed: real, dt: real)
    ensures YawTurn(pressed, RotateBindings, speed, dt) == Net(pressed, ArrowRight, ArrowLeft, speed * dt)
    ensures RollTurn(pressed, RotateBindings, speed, dt) == Net(pressed, Digit3, Digit1, speed * dt)
    ensures AnyHeld(pressed, RotateBindings) <==> RotationKeyHeld(pressed)
  {
    var b := RotateBindings;
    assert b[1..] == [(ArrowDown, 'N'), (ArrowLeft, 'Y'), (ArrowRight, 'H'), (Digit1, 'L'), (Digit3, 'R')];
    assert b[1..][1..] == [(ArrowLeft, 'Y'), (ArrowRight, 'H'), (Digit1, 'L'), (Digit3, 'R')];
    assert b[1..][1..][1..] == [(ArrowRight, 'H'), (Digit1, 'L'), (Digit3, 'R')];
    assert b[1..][1..][1..][1..] == [(Digit1, 'L'), (Digit3, 'R')];
    assert b[1..][1..][1..][1..][1..] == [(Digit3, 'R')];
    assert b[1..][1..][1..][1..][1..][1..] == [];
  }

  /** Over the source's rotation keys the pitch moves only for the arrows:
      up adds speed * dt and clamps, then down subtracts it and clamps; the
      other rotation keys only clamp the pitch. */
  lemma RotateBindingsPitch(p: real, pressed: set<Key>, speed: real, dt: real)
    ensures var a := speed * dt;
            var up := if ArrowUp in pressed then Clamp(p + a, -PitchLimit, PitchLimit) else p;
            var down := if ArrowDown in pressed then Clamp(up - a, -PitchLimit, PitchLimit) else up;
            PitchAfter(p, pressed, RotateBindings, speed, dt)
            == if ArrowUp in pressed || ArrowDown in pressed then down
               else if RotationKeyHeld(pressed) then Clamp(p, -PitchLimit, PitchLimit)
               else p
  {
    var b := RotateBindings;
    var a := speed * dt;
    var up := if ArrowUp in pressed then Clamp(p + a, -PitchLimit, PitchLimit) else p;
    var down := if ArrowDown in pressed then Clamp(up - a, -PitchLimit, PitchLimit) else up;
    assert b[1..] == [(ArrowDown, 'N')] + b[2..];
    assert PitchAfter(p, pressed, b, speed, dt) == PitchAfter(up, pressed, b[1..], speed, dt);
    assert PitchAfter(up, pressed, b[1..], speed, dt) == PitchAfter(down, pressed, b[2..], speed, dt);
    OtherAxesClampPitch(down, pressed, speed, dt);
  }

  /** After the two arrows, the remaining rotation keys leave the pitch
      alone but for the clamp. */
  lemma OtherAxesClampPitch(q: real, pressed: set<Key>, speed: real, dt: real)
    ensures PitchAfter(q, pressed, RotateBindings[2..], speed, dt)
            == if ArrowLeft in pressed || ArrowRight in pressed || Digit1 in pressed || Digit3 in pressed
               then Clamp(q, -PitchLimit, PitchLimit) else q
  {
    var t := RotateBindings[2..];
    assert t == [(ArrowLeft, 'Y'), (ArrowRight, 'H'), (Digit1, 'L'), (Digit3, 'R')];
    assert t[1..] == [(ArrowRight, 'H'), (Digit1, 'L'), (Digit3, 'R')];
    assert t[1..][1..] == [(Digit1, 'L'), (Digit3, 'R')];
    assert t[1..][1..][1..] == [(Digit3, 'R')];
    assert t[1..][1..][1..][1..] == [];
    var q1 := if ArrowLeft in pressed then Clamp(q, -PitchLimit, PitchLimit) else q;
    var q2 := if ArrowRight in pressed then Clamp(q1, -PitchLimit, PitchLimit) else q1;
    var q3 := if Digit1 in pressed then Clamp(q2, -PitchLimit, PitchLimit) else q2;
    var q4 := if Digit3 in pressed then Clamp(q3, -PitchLimit, PitchLimit) else q3;
    assert PitchAfter(q, pressed, t, speed, dt) == PitchAfter(q1, pressed, t[1..], speed, dt);
    assert PitchAfter(q1, pressed, t[1..], speed, dt) == PitchAfter(q2, pressed, t[1..][1..], speed, dt);
    assert PitchAfter(q2, pressed, t[1..][1..], speed, dt) == PitchAfter(q3, pressed, t[1..][1..][1..], speed, dt);
    assert PitchAfter(q3, pressed, t[1..][1..][1..], speed, dt) == q4;
  }

  /** Up and down together do not cancel at the clamp: from a pitch of 88
      with a 5-degree turn, up stops at 89 and down then leaves 84. */
  lemma UpAndDownStopAtClamp(c: BasicCamera, pressed: set<Key>, dt: real, basis: BasisOf)
    requires pressed == {ArrowUp, ArrowDown}
    requires c.pitch == 88.0 && c.rotationSpeed * dt == 5.0
    ensures CameraInput(c, pressed, dt, basis).pitch == 84.0
  {
    RotateBindingsPitch(c.pitch, pressed, c.rotationSpeed, dt);
  }

  /** The movement bindings add up to: forward minus backward along
      Direction, right minus left along Right, up minus down along Up. */
  lemma MoveBindingsSum(b: Basis, speed: real, dt: real, pressed: set<Key>)
    ensures var v := speed * dt;
            SumMoves(b, speed, dt, pressed, MoveBindings)
            == Add(Add(Scale(b.direction, Net(pressed, KeyW, KeyS, v)),
                       Scale(b.right, Net(pressed, KeyD, KeyA, v))),
                   Scale(b.up, Net(pressed, KeyE, KeyR, v)))
  {
    var m := MoveBindings;
    var v := speed * dt;
    assert m[1..] == [(KeyS, 'S'), (KeyA, 'A'), (KeyD, 'D'), (KeyE, 'E'), (KeyR, 'R')];
    assert m[1..][1..] == [(KeyA, 'A'), (KeyD, 'D'), (KeyE, 'E'), (KeyR, 'R')];
    assert m[1..][1..][1..] == [(KeyD, 'D'), (KeyE, 'E'), (KeyR, 'R')];
    assert m[1..][1..][1..][1..] == [(KeyE, 'E'), (KeyR, 'R')];
    assert m[1..][1..][1..][1..][1..] == [(KeyR, 'R')];
    assert m[1..][1..][1..][1..][1..][1..] == [];
    var tw, ts := HeldMove(b, v, pressed, (KeyW, 'W')), HeldMove(b, v, pressed, (KeyS, 'S'));
    var ta, td := HeldMove(b, v, pressed, (KeyA, 'A')), HeldMove(b, v, pressed, (KeyD, 'D'));
    var te, tr := HeldMove(b, v, pressed, (KeyE, 'E')), HeldMove(b, v, pressed, (KeyR, 'R'));
    assert SumMoves(b, speed, dt, pressed, m) == Add(tw, Add(ts, Add(ta, Add(td, Add(te, Add(tr, Zero))))));
    Regroup(tw, ts, ta, td, te, tr);
    MoveTable(b, v);
    AxisPair(b.direction, v, pressed, KeyW, 'W', KeyS, 'S', b);
    AxisPair(b.right, v, pressed, KeyD, 'D', KeyA, 'A', b);
    AxisPair(b.up, v, pressed, KeyE, 'E', KeyR, 'R', b);
  }

  lemma MoveTable(b: Basis, v: real)
    ensures Displacement(b, 'W', v) == Scale(b.direction, v) && Displacement(b, 'S', v) == Scale(b.direction, -v)
    ensures Displacement(b, 'D', v) == Scale(b.right, v) && Displacement(b, 'A', v) == Scale(b.right, -v)
    ensures Displacement(b, 'E', v) == Scale(b.up, v) && Displacement(b, 'R', v) == Scale(b.up, -v)
  {
  }

  /** Two opposite bindings on the axis d add up to d scaled by the net key. */
  lemma AxisPair(d: Vec3, v: real, pressed: set<Key>, plus: Key, pc: char, minus: Key, mc: char, b: Basis)
    requires Displacement(b, pc, v) == Scale(d, v) && Displacement(b, mc, v) == Scale(d, -v)
    ensures Add(HeldMove(b, v, pressed, (plus, pc)), HeldMove(b, v, pressed, (minus, mc)))
            == Scale(d, Net(pressed, plus, minus, v))
  {
    var hp, hm := HeldMove(b, v, pressed, (plus, pc)), HeldMove(b, v, pressed, (minus, mc));
    if plus in pressed {
      assert hp == Scale(d, v);
    } else {
      assert hp == Zero;
    }
    if minus in pressed {
      assert hm == Scale(d, -v);
    } else {
      assert hm == Zero;
    }
    PairSum(d, pressed, plus, minus, v);
  }

  lemma Regroup(tw: Vec3, ts: Vec3, ta: Vec3, td: Vec3, te: Vec3, tr: Vec3)
    ensures Add(tw, Add(ts, Add(ta, Add(td, Add(te, Add(tr, Zero))))))
            == Add(Add(Add(tw, ts), Add(td, ta)), Add(te, tr))
  {
  }

  /** A pair of opposite keys on one axis. */
  lemma PairSum(d: Vec3, pressed: set<Key>, plus: Key, minus: Key, v: real)
    ensures Add(if plus in pressed then Scale(d, v) else Zero, if minus in pressed then Scale(d, -v) else Zero)
            == Scale(d, Net(pressed, plus, minus, v))
  {
  }

  /** Holding forward and backward together leaves the camera where it is. */
  lemma ForwardAndBackwardCancel(s: AppState, pressed: set<Key>, dt: real, basis: BasisOf)
    requires KeyW in pressed && KeyS in pressed
    requires KeyA !in pressed && KeyD !in pressed && KeyE !in pressed && KeyR !in pressed
    ensures ProcessInput(s, pressed, dt, basis).camera.position == s.camera.position
  {
    var c := s.camera;
    var r := CameraInput(c, pressed, dt, basis);
    OppositeMovesCancel(BasisOfCamera(c), c.movementSpeed, dt, pressed);
    assert Sub(r.position, c.position) == Zero;
  }

  /** When each pair of opposite movement keys is both held or both
      released, the movement keys add up to no displacement. */
  lemma OppositeMovesCancel(b: Basis, speed: real, dt: real, pressed: set<Key>)
    requires (KeyW in pressed) == (KeyS in pressed)
    requires (KeyA in pressed) == (KeyD in pressed)
    requires (KeyE in pressed) == (KeyR in pressed)
    ensures SumMoves(b, speed, dt, pressed, MoveBindings) == Zero
  {
    var v := speed * dt;
    MoveBindingsSum(b, speed, dt, pressed);
    NetVanishes(pressed, KeyW, KeyS, v);
    NetVanishes(pressed, KeyD, KeyA, v);
    NetVanishes(pressed, KeyE, KeyR, v);
    ZeroSteps(b, Net(pressed, KeyW, KeyS, v), Net(pressed, KeyD, KeyA, v), Net(pressed, KeyE, KeyR, v));
  }

  /** Opposite keys both held, or both released, cancel out. */
  lemma NetVanishes(pressed: set<Key>, plus: Key, minus: Key, x: real)
    requires (plus in pressed) == (minus in pressed)
    ensures Net(pressed, plus, minus, x) == 0.0
  {
  }

  lemma ZeroSteps(b: Basis, forward: real, sideways: real, upward: real)
    requires forward == 0.0 && sideways == 0.0 && upward == 0.0
    ensures Add(Add(Scale(b.direction, forward), Scale(b.right, sideways)), Scale(b.up, upward)) == Zero
  {
  }

  /** Key 1 does two things at once: it rolls the camera counter-clockwise
      and switches the directional light. */
  lemma DigitOneRollsAndTogglesDirectional(s: AppState, pressed: set<Key>, dt: real, basis: BasisOf)
    requires Digit1 in pressed && Digit3 !in pressed
    ensures var r := ProcessInput(s, pressed, dt, basis);
            && r.camera.roll == s.camera.roll - s.camera.rotationSpeed * dt
            && r.lights.directional == !s.lights.directional
            && -PitchLimit <= r.camera.pitch <= PitchLimit
  {
    RotateBindingsTurns(pressed, s.camera.rotationSpeed, dt);
  }

  /** Key 3 does two things at once: it rolls the camera clockwise and
      switches the second point light. */
  lemma DigitThreeRollsAndTogglesPoint2(s: AppState, pressed: set<Key>, dt: real, basis: BasisOf)
    requires Digit3 in pressed && Digit1 !in pressed
    ensures var r := ProcessInput(s, pressed, dt, basis);
            && r.camera.roll == s.camera.roll + s.camera.rotationSpeed * dt
            && r.lights.point2 == !s.lights.point2
            && -PitchLimit <= r.camera.pitch <= PitchLimit
  {
    RotateBindingsTurns(pressed, s.camera.rotationSpeed, dt);
  }

  /** With no key held, processInput leaves the whole state as it was. */
  lemma NoKeysNoChange(s: AppState, pressed: set<Key>, dt: real, basis: BasisOf)
    requires pressed == {}
    ensures ProcessInput(s, pressed, dt, basis) == s
  {
    NoKeysKeepCamera(s.camera, pressed, dt, basis);
    NoKeysKeepLights(s.lights, pressed);
    NetVanishes(pressed, KeyL, KeyJ, TranslateStep);
    NetVanishes(pressed, KeyI, KeyK, TranslateStep);
    NetVanishes(pressed, KeyO, KeyP, TranslateStep);
  }

  lemma NoKeysKeepCamera(c: BasicCamera, pressed: set<Key>, dt: real, basis: BasisOf)
    requires pressed == {}
    ensures CameraInput(c, pressed, dt, basis) == c
  {
    var r := CameraInput(c, pressed, dt, basis);
    NoKeysKeepPosition(c, pressed, dt, basis);
    NoKeysKeepAngles(c, pressed, dt, basis);
    SameCamera(r, c);
  }

  lemma NoKeysKeepPosition(c: BasicCamera, pressed: set<Key>, dt: real, basis: BasisOf)
    requires pressed == {}
    ensures CameraInput(c, pressed, dt, basis).position == c.position
  {
    var r := CameraInput(c, pressed, dt, basis);
    OppositeMovesCancel(BasisOfCamera(c), c.movementSpeed, dt, pressed);
    assert Sub(r.position, c.position) == Zero;
  }

  lemma NoKeysKeepAngles(c: BasicCamera, pressed: set<Key>, dt: real, basis: BasisOf)
    requires pressed == {}
    ensures var r := CameraInput(c, pressed, dt, basis);
            r.yaw == c.yaw && r.roll == c.roll && !AnyHeld(pressed, RotateBindings)
  {
    RotateBindingsTurns(pressed, c.rotationSpeed, dt);
    NetVanishes(pressed, ArrowRight, ArrowLeft, c.rotationSpeed * dt);
    NetVanishes(pressed, Digit3, Digit1, c.rotationSpeed * dt);
  }

  lemma SameCamera(r: BasicCamera, c: BasicCamera)
    requires r.position == c.position && r.direction == c.direction && r.right == c.right && r.up == c.up
    requires r.yaw == c.yaw && r.pitch == c.pitch && r.roll == c.roll && r.zoom == c.zoom
    requires r.mouseSensitivity == c.mouseSensitivity && r.movementSpeed == c.movementSpeed
    requires r.rotationSpeed == c.rotationSpeed
    ensures r == c
  {
  }

  lemma NoKeysKeepLights(l: Lights, pressed: set<Key>)
    requires pressed == {}
    ensures LightInput(l, pressed) == l
  {
  }

  /** The fan update of the render loop: advance by 200 degrees per second
      and wrap once when past a full turn. */
  function FanStep(angle: real, rotating: bool, dt: real): (r: real)
    ensures !rotating ==> r == angle
    ensures rotating ==> r == angle + FanSpeed * dt || r == angle + FanSpeed * dt - 360.0
    ensures rotating ==> (r == angle + FanSpeed * dt <==> angle + FanSpeed * dt <= 360.0)
  {
    if rotating then
      var a := angle + FanSpeed * dt;
      if a > 360.0 then a - 360.0 else a
    else angle
  }

  /** From an angle within one turn and a step of at most one turn, the fan
      angle stays within one turn. */
  lemma FanStepStaysInRange(angle: real, rotating: bool, dt: real)
    requires 0.0 <= angle <= 360.0
    requires 0.0 <= FanSpeed * dt <= 360.0
    ensures 0.0 <= FanStep(angle, rotating, dt) <= 360.0
  {
  }

  /** The part of one pass of the render loop before drawing: processInput,
      then the fan update, which already sees the flag G may have flipped.
      The time step is whatever the clock gives, so the fan angle is only
      kept within one turn when a frame lasts at most 1.8 seconds. */
  function Tick(s: AppState, pressed: set<Key>, dt: real, basis: BasisOf): (r: AppState)
    ensures r.closeRequested == (s.closeRequested || Escape in pressed)
    ensures r.fanRotating == (s.fanRotating != (KeyG in pressed))
    ensures r.fanAngle == FanStep(s.fanAngle, r.fanRotating, dt)
    ensures r.camera == CameraInput(s.camera, pressed, dt, basis)
    ensures r == ProcessInput(s, pressed, dt, basis).(fanAngle := r.fanAngle)
    ensures Valid(s.camera, basis) ==> Valid(r.camera, basis)
    ensures Invariant(s, basis) && 0.0 <= FanSpeed * dt <= 360.0 ==> Invariant(r, basis)
  {
    var s1 := ProcessInput(s, pressed, dt, basis);
    s1.(fanAngle := FanStep(s1.fanAngle, s1.fanRotating, dt))
  }

  /** A frame after a stall of two seconds turns a spinning fan from 350 to
      390 degrees: the single wrap does not bring it back within one turn. */
  lemma LongFrameLeavesTurn(s: AppState, pressed: set<Key>, basis: BasisOf)
    requires s.fanAngle == 350.0 && s.fanRotating && KeyG !in pressed
    ensures Tick(s, pressed, 2.0, basis).fanAngle == 390.0
    ensures !Invariant(Tick(s, pressed, 2.0, basis), basis)
  {
  }

  /** The scroll callback: forward the wheel offset to the camera. */
  function Scroll(s: AppState, yoffset: real): (r: AppState)
    ensures r == s.(camera := r.camera)
    ensures r.camera == ProcessMouseScroll(s.camera, yoffset)
    ensures MinZoom <= r.camera.zoom <= MaxZoom
  {
    s.(camera := ProcessMouseScroll(s.camera, yoffset))
  }

  /** glfwPollEvents at the end of a pass: each scroll offset goes to the
      scroll callback in turn, and a click on the window's close button
      (window_close_callback) asks the loop to stop. */
  function Poll(s: AppState, scrolls: seq<real>, closeClicked: bool): (r: AppState)
    ensures r == s.(camera := r.camera, closeRequested := r.closeRequested)
    ensures r.camera == ScrollAll(s.camera, scrolls)
    ensures r.closeRequested == (s.closeRequested || closeClicked)
    decreases |scrolls|
  {
    if |scrolls| == 0 then s.(closeRequested := s.closeRequested || closeClicked)
    else Poll(Scroll(s, scrolls[0]), scrolls[1..], closeClicked)
  }

  /** Any run of scroll events keeps a valid camera valid. */
  lemma ScrollsKeepValid(c: BasicCamera, offsets: seq<real>, basis: BasisOf)
    ensures Valid(c, basis) ==> Valid(ScrollAll(c, offsets), basis)
  {
    if |offsets| > 0 {
      ScrollsBoundZoom(c, offsets);
    }
  }

  /** What one pass of the render loop sees: the keys held, the time since
      the previous pass, and the events polled at its end. */
  datatype Frame = Frame(pressed: set<Key>, dt: real, scrolls: seq<real>, closeClicked: bool)

  /** One whole pass of the render loop. */
  function Pass(s: AppState, f: Frame, basis: BasisOf): (r: AppState)
    ensures r.closeRequested == (s.closeRequested || Escape in f.pressed || f.closeClicked)
    ensures r.fanRotating == (s.fanRotating != (KeyG in f.pressed))
    ensures r.fanAngle == FanStep(s.fanAngle, r.fanRotating, f.dt)
    ensures r.camera == ScrollAll(CameraInput(s.camera, f.pressed, f.dt, basis), f.scrolls)
    ensures r.lights == LightInput(s.lights, f.pressed)
    ensures var t := SceneInput(s, f.pressed);
            && r.translateX == t.translateX && r.translateY == t.translateY && r.translateZ == t.translateZ
            && r.rotateAngleX == t.rotateAngleX && r.rotateAngleY == t.rotateAngleY
            && r.rotateAngleZ == t.rotateAngleZ
    ensures Valid(s.camera, basis) ==> Valid(r.camera, basis)
    ensures Invariant(s, basis) && 0.0 <= FanSpeed * f.dt <= 360.0 ==> Invariant(r, basis)
  {
    var t := Tick(s, f.pressed, f.dt, basis);
    ScrollsKeepValid(t.camera, f.scrolls, basis);
    Poll(t, f.scrolls, f.closeClicked)
  }

  /** Every frame lasts at most 1.8 seconds, so the fan turns at most once. */
  predicate FrameTimesBounded(frames: seq<Frame>) {
    forall i :: 0 <= i < |frames| ==> 0.0 <= FanSpeed * frames[i].dt <= 360.0
  }

  /** The render loop `while (!glfwWindowShouldClose(window))`: passes run
      until one of them asks to close; the camera stays valid throughout,
      and the fan angle stays within one turn while frames are short. */
  function Run(s: AppState, frames: seq<Frame>, basis: BasisOf): (r: AppState)
    ensures s.closeRequested ==> r == s
    ensures Valid(s.camera, basis) ==> Valid(r.camera, basis)
    ensures Invariant(s, basis) && FrameTimesBounded(frames) ==> Invariant(r, basis)
    decreases |frames|
  {
    if |frames| == 0 || s.closeRequested then s
    else
      assert FrameTimesBounded(frames) ==> FrameTimesBounded(frames[1..]) by {
        if FrameTimesBounded(frames) {
          forall i | 0 <= i < |frames[1..]|
            ensures 0.0 <= FanSpeed * frames[1..][i].dt <= 360.0
          {
            assert frames[1..][i] == frames[i + 1];
          }
        }
      }
      Run(Pass(s, frames[0], basis), frames[1..], basis)
  }

  /** A pass that asks to close is the last one: Escape or the close button
      ends the loop, whatever frames would have followed. */
  lemma CloseEndsLoop(s: AppState, f: Frame, rest: seq<Frame>, basis: BasisOf)
    requires !s.closeRequested && (Escape in f.pressed || f.closeClicked)
    ensures Run(s, [f] + rest, basis) == Pass(s, f, basis)
  {
  }

  /** The loop runs the frames one after another: running a further frame
      after a stream is one more pass, unless a close is already pending. */
  lemma {:induction false} RunAppend(s: AppState, frames: seq<Frame>, f: Frame, basis: BasisOf)
    ensures var t := Run(s, frames, basis);
            Run(s, frames + [f], basis) == if t.closeRequested then t else Pass(t, f, basis)
    decreases |frames|
  {
    if |frames| == 0 {
      assert frames + [f] == [f];
      assert [f][1..] == [];
    } else if !s.closeRequested {
      assert (frames + [f])[0] == frames[0];
      assert (frames + [f])[1..] == frames[1..] + [f];
      RunAppend(Pass(s, frames[0], basis), frames[1..], f, basis);
    }
  }
}
