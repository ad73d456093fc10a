/**
 * Camera: an owned Transform plus cached view and projection matrices, and
 * the per-frame navigation step (one relative move per held key, then an
 * additive mouse look whose pitch is clamped to [-pi/2, pi/2], then a view
 * recompute).
 */
module Cameras {
  import opened DxMath
  import opened Transforms

  /** What Camera::Update polls from the input layer during one frame. */
  datatype InputState = InputState(
    keyW: bool, keyS: bool, keyA: bool, keyD: bool, keySpace: bool, keyX: bool,
    mouseLeft: bool, mouseDeltaX: real, mouseDeltaY: real)

  /** A one-element list when the key is held, else the empty list. */
  function IfHeld(held: bool, offset: Float3): seq<Float3> {
    if held then [offset] else []
  }

  /** The local offsets passed to MoveRelative, one per held key, in the order the keys are checked. */
  function Moves(input: InputState, step: real): seq<Float3> {
    IfHeld(input.keyW, Float3(0.0, 0.0, step))
    + IfHeld(input.keyS, Float3(0.0, 0.0, -step))
    + IfHeld(input.keyA, Float3(-step, 0.0, 0.0))
    + IfHeld(input.keyD, Float3(step, 0.0, 0.0))
    + IfHeld(input.keySpace, Float3(0.0, step, 0.0))
    + IfHeld(input.keyX, Float3(0.0, -step, 0.0))
  }

  /** One conditional MoveRelative: the rotated offset is added only when the key is held. */
  function MoveIf(p: Float3, rotation: Float3, held: bool, offset: Float3, ops: OrientationOps): Float3 {
    if held then Add(p, ops.rotateOffset(rotation, offset)) else p
  }

  /** The position after the six key checks of Camera::Update, made in source order. */
  function KeyMoves(p: Float3, rotation: Float3, input: InputState, step: real, ops: OrientationOps): Float3 {
    var afterW := MoveIf(p, rotation, input.keyW, Float3(0.0, 0.0, step), ops);
    var afterS := MoveIf(afterW, rotation, input.keyS, Float3(0.0, 0.0, -step), ops);
    var afterA := MoveIf(afterS, rotation, input.keyA, Float3(-step, 0.0, 0.0), ops);
    var afterD := MoveIf(afterA, rotation, input.keyD, Float3(step, 0.0, 0.0), ops);
    var afterSpace := MoveIf(afterD, rotation, input.keySpace, Float3(0.0, step, 0.0), ops);
    MoveIf(afterSpace, rotation, input.keyX, Float3(0.0, -step, 0.0), ops)
  }

  /** The number of movement keys held. */
  function HeldKeys(input: InputState): nat {
    (if input.keyW then 1 else 0) + (if input.keyS then 1 else 0)
    + (if input.keyA then 1 else 0) + (if input.keyD then 1 else 0)
    + (if input.keySpace then 1 else 0) + (if input.keyX then 1 else 0)
  }

  /** An offset of length `step` along exactly one local axis. */
  predicate OnOneAxis(m: Float3, step: real) {
    || (m.x == 0.0 && m.y == 0.0 && (m.z == step || m.z == -step))
    || (m.y == 0.0 && m.z == 0.0 && (m.x == step || m.x == -step))
    || (m.x == 0.0 && m.z == 0.0 && (m.y == step || m.y == -step))
  }

  /** The position after applying the relative moves in order, the rotation staying fixed. */
  function Travel(p: Float3, rotation: Float3, moves: seq<Float3>, ops: OrientationOps): Float3
    decreases |moves|
  {
    if moves == [] then p
    else Travel(Add(p, ops.rotateOffset(rotation, moves[0])), rotation, moves[1..], ops)
  }

  /** The sum of the world-space offsets of a sequence of moves. */
  function Displacement(rotation: Float3, moves: seq<Float3>, ops: OrientationOps): Float3
    decreases |moves|
  {
    if moves == [] then Zero3
    else Add(ops.rotateOffset(rotation, moves[0]), Displacement(rotation, moves[1..], ops))
  }

  /** The pitch clamp of Camera::Update. */
  function ClampPitch(pitch: real): (r: real)
    ensures -PiDiv2 <= r <= PiDiv2
    ensures -PiDiv2 <= pitch <= PiDiv2 ==> r == pitch
    ensures pitch > PiDiv2 ==> r == PiDiv2
    ensures pitch < -PiDiv2 ==> r == -PiDiv2
  {
    if pitch > PiDiv2 then PiDiv2 else if pitch < -PiDiv2 then -PiDiv2 else pitch
  }

  /**
   * The rotation after the mouse-look stage: unchanged when the left button
   * is up; otherwise the mouse deltas scaled by mouseSpeed * dt are added to
   * yaw (x delta) and pitch (y delta), and then the pitch alone is clamped.
   */
  function Look(rotation: Float3, input: InputState, mouseSpeed: real, dt: real): (r: Float3)
    ensures !input.mouseLeft ==> r == rotation
    ensures input.mouseLeft ==> -PiDiv2 <= r.x <= PiDiv2
    ensures input.mouseLeft ==> r.x == ClampPitch(rotation.x + input.mouseDeltaY * mouseSpeed * dt)
    ensures input.mouseLeft ==> r.y == rotation.y + input.mouseDeltaX * mouseSpeed * dt
    ensures r.z == rotation.z
  {
    if !input.mouseLeft then rotation
    else
      var turned := Add(rotation, Float3(input.mouseDeltaY * mouseSpeed * dt, input.mouseDeltaX * mouseSpeed * dt, 0.0));
      Float3(ClampPitch(turned.x), turned.y, turned.z)
  }

  /** With the button down, Look is the clamped result of adding the scaled deltas. */
  lemma LookTurns(rotation: Float3, input: InputState, mouseSpeed: real, dt: real)
    requires input.mouseLeft
    ensures var turned := Add(rotation, Float3(input.mouseDeltaY * mouseSpeed * dt, input.mouseDeltaX * mouseSpeed * dt, 0.0));
      Look(rotation, input, mouseSpeed, dt) == Float3(ClampPitch(turned.x), turned.y, turned.z)
  {
  }

  /** The pose after one Camera::Update: the key moves, then the mouse look; the scale is untouched. */
  function Step(p: Pose, input: InputState, dt: real, moveSpeed: real, mouseSpeed: real, ops: OrientationOps): Pose {
    Pose(KeyMoves(p.position, p.rotation, input, moveSpeed * dt, ops),
         Look(p.rotation, input, mouseSpeed, dt),
         p.scale)
  }

  /** The view matrix for a position and rotation: look-to along the forward vector with world up (0,1,0). */
  function View(position: Float3, rotation: Float3, ops: OrientationOps): Matrix {
    LookToLH(position, ops.forward(rotation), UnitY)
  }

  class Camera {
    const transform: Transform
    var viewMatrix: Matrix
    var projectionMatrix: Matrix
    /** Declared in Camera.h; no member function writes or reads it. */
    var aspectRatio: real
    const fov: real
    const nearClip: real
    const farClip: real
    const moveSpeed: real
    const mouseSpeed: real
    /** Accepted and stored; no member function consults it. */
    const isOrtho: bool

    constructor (aspectRatio: real, initialPosition: Float3, inOrientation: Float3,
                 moveSpeed: real, mouseSpeed: real, fov: real, nearClip: real, farClip: real,
                 isOrtho: bool, ops: OrientationOps)
      ensures fresh(transform)
      ensures transform.State() == Pose(initialPosition,
        Float3(ConvertToRadians(inOrientation.x), ConvertToRadians(inOrientation.y), ConvertToRadians(inOrientation.z)),
        One3)
      ensures transform.Valid()
      ensures this.moveSpeed == moveSpeed && this.mouseSpeed == mouseSpeed && this.fov == fov
      ensures this.nearClip == nearClip && this.farClip == farClip && this.isOrtho == isOrtho
      ensures projectionMatrix == PerspectiveFovLH(fov, aspectRatio, nearClip, farClip)
      ensures viewMatrix == View(transform.position, transform.rotation, ops)
    {
      this.moveSpeed := moveSpeed;
      this.mouseSpeed := mouseSpeed;
      this.fov := fov;
      this.nearClip := nearClip;
      this.farClip := farClip;
      this.isOrtho := isOrtho;
      transform := new Transform();
      new;
      transform.SetPosition(Float3(initialPosition.x, initialPosition.y, initialPosition.z));
      transform.SetRotation(ConvertToRadians(inOrientation.x), ConvertToRadians(inOrientation.y), ConvertToRadians(inOrientation.z));
      UpdateProjectionMatrix(aspectRatio);
      UpdateViewMatrix(ops);
    }

    method GetViewMatrix() returns (m: Matrix)
      ensures m == viewMatrix
    {
      m := viewMatrix;
    }

    method GetProjMatrix() returns (m: Matrix)
      ensures m == projectionMatrix
    {
      m := projectionMatrix;
    }

    /** A left-handed perspective projection; isOrtho plays no part and the aspectRatio member is not written. */
    method UpdateProjectionMatrix(aspectRatio: real)
      modifies this`projectionMatrix
      ensures projectionMatrix == PerspectiveFovLH(fov, aspectRatio, nearClip, farClip)
      ensures this.aspectRatio == old(this.aspectRatio)
    {
      projectionMatrix := PerspectiveFovLH(fov, aspectRatio, nearClip, farClip);
    }

    /** Look-to from the transform's current position along its current forward vector. */
    method UpdateViewMatrix(ops: OrientationOps)
      modifies this`viewMatrix
      ensures viewMatrix == View(transform.position, transform.rotation, ops)
    {
      var pos := transform.GetPosition();
      var forward := ops.forward(transform.rotation);
      var worldUp := UnitY;
      viewMatrix := LookToLH(pos, forward, worldUp);
    }

    /** One key check of Camera::Update: a relative move by `offset` when the key is held, nothing otherwise. */
    method MoveOnKey(held: bool, offset: Float3, ops: OrientationOps)
      modifies transform
      ensures transform.State() == old(transform.State()).(position := MoveIf(old(transform.position), old(transform.rotation), held, offset, ops))
      ensures old(transform.Valid()) ==> transform.Valid()
    {
      if held {
        transform.MoveRelative(offset, ops);
      }
    }

    /** The six key checks of Camera::Update: W, S, A, D, Space, X, each a MoveOnKey of length moveSpeed * dt. */
    method MoveOnKeys(dt: real, input: InputState, ops: OrientationOps)
      modifies transform
      ensures transform.State() == old(transform.State()).(position :=
        KeyMoves(old(transform.position), old(transform.rotation), input, moveSpeed * dt, ops))
      ensures old(transform.Valid()) ==> transform.Valid()
    {
      MoveOnKey(input.keyW, Float3(0.0, 0.0, moveSpeed * dt), ops);
      MoveOnKey(input.keyS, Float3(0.0, 0.0, -moveSpeed * dt), ops);
      MoveOnKey(input.keyA, Float3(-moveSpeed * dt, 0.0, 0.0), ops);
      MoveOnKey(input.keyD, Float3(moveSpeed * dt, 0.0, 0.0), ops);
      MoveOnKey(input.keySpace, Float3(0.0, moveSpeed * dt, 0.0), ops);
      MoveOnKey(input.keyX, Float3(0.0, -moveSpeed * dt, 0.0), ops);
    }

    /** The mouse-look stage of Camera::Update: an additive Rotate, then SetRotation with the pitch clamped. */
    method MouseLook(dt: real, input: InputState)
      modifies transform
      ensures transform.State() == old(transform.State()).(rotation := Look(old(transform.rotation), input, mouseSpeed, dt))
      ensures old(transform.Valid()) ==> transform.Valid()
    {
      if input.mouseLeft {
        var cursorMovementX := input.mouseDeltaX;
        var cursorMovementY := input.mouseDeltaY;
        var x := cursorMovementX * mouseSpeed * dt;
        var y := cursorMovementY * mouseSpeed * dt;
        transform.Rotate(Float3(y, x, 0.0));
        LookTurns(old(transform.rotation), input, mouseSpeed, dt);

        var rot := transform.GetPitchYawRoll();
        var xRot := rot.x;
        if xRot > PiDiv2 {
          xRot := PiDiv2;
        } else if xRot < -PiDiv2 {
          xRot := -PiDiv2;
        }
        rot := transform.GetPitchYawRoll();
        transform.SetRotation(xRot, rot.y, rot.z);
      }
    }

    /** One frame of navigation: key moves, mouse look with pitch clamp, then the view recompute. */
    method Update(dt: real, input: InputState, ops: OrientationOps)
      requires transform.Valid()
      modifies this`viewMatrix, transform
      ensures transform.Valid()
      ensures transform.State() == Step(old(transform.State()), input, dt, moveSpeed, mouseSpeed, ops)
      ensures viewMatrix == View(transform.position, transform.rotation, ops)
      ensures projectionMatrix == old(projectionMatrix)
    {
      MoveOnKeys(dt, input, ops);
      MouseLook(dt, input);
      UpdateViewMatrix(ops);
    }
  }

  /** Appending one move to the list adds exactly its world-space offset to the end position. */
  lemma {:induction false} TravelSnoc(p: Float3, rotation: Float3, moves: seq<Float3>, m: Float3, ops: OrientationOps)
    ensures Travel(p, rotation, moves + [m], ops) == Add(Travel(p, rotation, moves, ops), ops.rotateOffset(rotation, m))
    decreases |moves|
  {
    if moves == [] {
      assert [] + [m] == [m];
    } else {
      assert (moves + [m])[1..] == moves[1..] + [m];
      TravelSnoc(Add(p, ops.rotateOffset(rotation, moves[0])), rotation, moves[1..], m, ops);
    }
  }

  /** The moves made so far, extended by `offset` when its key is held; the position follows. */
  lemma MoveDone(p: Float3, rotation: Float3, done: seq<Float3>, held: bool, offset: Float3, ops: OrientationOps)
    returns (next: seq<Float3>)
    ensures next == done + IfHeld(held, offset)
    ensures Travel(p, rotation, next, ops) == MoveIf(Travel(p, rotation, done, ops), rotation, held, offset, ops)
  {
    next := done + IfHeld(held, offset);
    if held {
      TravelSnoc(p, rotation, done, offset, ops);
    } else {
      assert next == done;
    }
  }

  /** The six conditional moves of Camera::Update are exactly the travel along Moves, in order. */
  lemma KeyMovesTravel(p: Float3, rotation: Float3, input: InputState, step: real, ops: OrientationOps)
    ensures KeyMoves(p, rotation, input, step, ops) == Travel(p, rotation, Moves(input, step), ops)
  {
    var done := MoveDone(p, rotation, [], input.keyW, Float3(0.0, 0.0, step), ops);
    done := MoveDone(p, rotation, done, input.keyS, Float3(0.0, 0.0, -step), ops);
    done := MoveDone(p, rotation, done, input.keyA, Float3(-step, 0.0, 0.0), ops);
    done := MoveDone(p, rotation, done, input.keyD, Float3(step, 0.0, 0.0), ops);
    done := MoveDone(p, rotation, done, input.keySpace, Float3(0.0, step, 0.0), ops);
    done := MoveDone(p, rotation, done, input.keyX, Float3(0.0, -step, 0.0), ops);
    assert [] + IfHeld(input.keyW, Float3(0.0, 0.0, step)) == IfHeld(input.keyW, Float3(0.0, 0.0, step));
    assert done == Moves(input, step);
  }

  /** Relative moves accumulate: the end position is the start plus the sum of the rotated offsets. */
  lemma {:induction false} TravelIsDisplacement(p: Float3, rotation: Float3, moves: seq<Float3>, ops: OrientationOps)
    ensures Travel(p, rotation, moves, ops) == Add(p, Displacement(rotation, moves, ops))
    decreases |moves|
  {
    if moves != [] {
      TravelIsDisplacement(Add(p, ops.rotateOffset(rotation, moves[0])), rotation, moves[1..], ops);
    }
  }

  lemma {:induction false} DisplacementAppend(rotation: Float3, a: seq<Float3>, b: seq<Float3>, ops: OrientationOps)
    ensures Displacement(rotation, a + b, ops) == Add(Displacement(rotation, a, ops), Displacement(rotation, b, ops))
    decreases |a|
  {
    if a == [] {
      assert a + b == b;
    } else {
      assert (a + b)[1..] == a[1..] + b;
      DisplacementAppend(rotation, a[1..], b, ops);
    }
  }

  /** The order in which the movement keys are checked does not change where the camera ends up. */
  lemma TravelOrderIrrelevant(p: Float3, rotation: Float3, a: seq<Float3>, b: seq<Float3>, ops: OrientationOps)
    ensures Travel(p, rotation, a + b, ops) == Travel(p, rotation, b + a, ops)
  {
    TravelIsDisplacement(p, rotation, a + b, ops);
    TravelIsDisplacement(p, rotation, b + a, ops);
    DisplacementAppend(rotation, a, b, ops);
    DisplacementAppend(rotation, b, a, ops);
  }

  /** One move per held movement key. */
  lemma MovesCount(input: InputState, step: real)
    ensures |Moves(input, step)| == HeldKeys(input)
  {
  }

  /** Every move is of length `step` along a single local axis. */
  lemma MovesOnAxes(input: InputState, step: real)
    ensures forall m :: m in Moves(input, step) ==> OnOneAxis(m, step)
  {
    forall m | m in Moves(input, step)
      ensures OnOneAxis(m, step)
    {
      MovesMembers(input, step, m);
    }
  }

  /** A move is in the list exactly when it is the offset of a held key. */
  lemma MovesMembers(input: InputState, step: real, m: Float3)
    ensures m in Moves(input, step) <==>
      || (input.keyW && m == Float3(0.0, 0.0, step))
      || (input.keyS && m == Float3(0.0, 0.0, -step))
      || (input.keyA && m == Float3(-step, 0.0, 0.0))
      || (input.keyD && m == Float3(step, 0.0, 0.0))
      || (input.keySpace && m == Float3(0.0, step, 0.0))
      || (input.keyX && m == Float3(0.0, -step, 0.0))
  {
  }

  /**
   * For a non-zero step the six offsets are pairwise distinct, so each key's
   * move is in the list exactly when that key is held: W +z, S -z, A -x, D +x,
   * Space +y, X -y.
   */
  lemma MovesPerKey(input: InputState, step: real)
    requires step != 0.0
    ensures input.keyW <==> Float3(0.0, 0.0, step) in Moves(input, step)
    ensures input.keyS <==> Float3(0.0, 0.0, -step) in Moves(input, step)
    ensures input.keyA <==> Float3(-step, 0.0, 0.0) in Moves(input, step)
    ensures input.keyD <==> Float3(step, 0.0, 0.0) in Moves(input, step)
    ensures input.keySpace <==> Float3(0.0, step, 0.0) in Moves(input, step)
    ensures input.keyX <==> Float3(0.0, -step, 0.0) in Moves(input, step)
  {
    assert step != -step;
    MovesMembers(input, step, Float3(0.0, 0.0, step));
    MovesMembers(input, step, Float3(0.0, 0.0, -step));
    MovesMembers(input, step, Float3(-step, 0.0, 0.0));
    MovesMembers(input, step, Float3(step, 0.0, 0.0));
    MovesMembers(input, step, Float3(0.0, step, 0.0));
    MovesMembers(input, step, Float3(0.0, -step, 0.0));
  }

  /** With no key held and the mouse button up, Update leaves the pose alone. */
  lemma IdleStep(p: Pose, input: InputState, dt: real, moveSpeed: real, mouseSpeed: real, ops: OrientationOps)
    requires HeldKeys(input) == 0 && !input.mouseLeft
    ensures Step(p, input, dt, moveSpeed, mouseSpeed, ops) == p
  {
    assert Moves(input, moveSpeed * dt) == [];
  }

  /** One frame of the look stage: the mouse input and that frame's dt. */
  datatype Tick = Tick(input: InputState, dt: real)

  /** The rotation after a run of frames' look stages. */
  function LookFrames(rotation: Float3, ticks: seq<Tick>, mouseSpeed: real): Float3
    decreases |ticks|
  {
    if ticks == [] then rotation
    else LookFrames(Look(rotation, ticks[0].input, mouseSpeed, ticks[0].dt), ticks[1..], mouseSpeed)
  }

  /** The total yaw added by a run of frames with the button held. */
  function YawSum(ticks: seq<Tick>, mouseSpeed: real): real
    decreases |ticks|
  {
    if ticks == [] then 0.0
    else ticks[0].input.mouseDeltaX * mouseSpeed * ticks[0].dt + YawSum(ticks[1..], mouseSpeed)
  }

  /**
   * Once the pitch is at pi/2, frames that keep pushing it up leave it pinned
   * at exactly pi/2, while the yaw keeps accumulating unclamped.
   */
  lemma {:induction false} PitchPinnedAtTop(rotation: Float3, ticks: seq<Tick>, mouseSpeed: real)
    requires rotation.x == PiDiv2 && mouseSpeed >= 0.0
    requires forall i :: 0 <= i < |ticks| ==> ticks[i].input.mouseLeft && ticks[i].input.mouseDeltaY >= 0.0 && ticks[i].dt >= 0.0
    ensures LookFrames(rotation, ticks, mouseSpeed).x == PiDiv2
    ensures LookFrames(rotation, ticks, mouseSpeed).y == rotation.y + YawSum(ticks, mouseSpeed)
    ensures LookFrames(rotation, ticks, mouseSpeed).z == rotation.z
    decreases |ticks|
  {
    if ticks != [] {
      var t := ticks[0];
      var next := Look(rotation, t.input, mouseSpeed, t.dt);
      var dy := t.input.mouseDeltaY * mouseSpeed;
      assert dy >= 0.0;
      assert dy * t.dt >= 0.0;
      assert next.x == PiDiv2;
      PitchPinnedAtTop(next, ticks[1..], mouseSpeed);
    }
  }

  /** Whatever the frames, a run with the button held ends with the pitch inside [-pi/2, pi/2]. */
  lemma {:induction false} PitchStaysClamped(rotation: Float3, ticks: seq<Tick>, mouseSpeed: real)
    requires ticks != [] && ticks[|ticks| - 1].input.mouseLeft
    ensures -PiDiv2 <= LookFrames(rotation, ticks, mouseSpeed).x <= PiDiv2
    decreases |ticks|
  {
    if |ticks| > 1 {
      assert ticks[1..][|ticks[1..]| - 1] == ticks[|ticks| - 1];
      PitchStaysClamped(Look(rotation, ticks[0].input, mouseSpeed, ticks[0].dt), ticks[1..], mouseSpeed);
    }
  }

  /**
   * A pitch that starts inside [-pi/2, pi/2] stays inside after any run of
   * frames: button-up frames keep the rotation and button-down frames clamp it.
   */
  lemma {:induction false} PitchStaysInRange(rotation: Float3, ticks: seq<Tick>, mouseSpeed: real)
    requires -PiDiv2 <= rotation.x <= PiDiv2
    ensures -PiDiv2 <= LookFrames(rotation, ticks, mouseSpeed).x <= PiDiv2
    decreases |ticks|
  {
    if ticks != [] {
      PitchStaysInRange(Look(rotation, ticks[0].input, mouseSpeed, ticks[0].dt), ticks[1..], mouseSpeed);
    }
  }
}
