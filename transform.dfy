/**
 * Transform: a position, a pitch/yaw/roll rotation (radians) and a scale,
 * plus the world matrix derived from them and its inverse-transpose. Every
 * mutator recomputes both matrices before it returns (`Derived()`); before
 * the first mutator the matrices are the identity the constructor stores.
 */
module Transforms {
  import opened DxMath

  /** The three stored fields of a Transform, as one value. */
  datatype Pose = Pose(position: Float3, rotation: Float3, scale: Float3)

  /** The pose a Transform is constructed with. */
  const IdentityPose: Pose := Pose(Zero3, Zero3, One3)

  /** The world matrix of a pose: Scaling * Rotation * Translation, in that order. */
  function World(p: Pose): Matrix {
    Multiply(Multiply(Scaling(p.scale), RotationRollPitchYaw(p.rotation)), Translation(p.position))
  }

  /** What UpdateWorld stores as the inverse-transpose: the inverse of the transposed world matrix. */
  function InverseTransposeOf(world: Matrix): Matrix {
    Inverse(Transpose(world))
  }

  /** The pose after Rotate(d): the delta is added to pitch, yaw and roll, with no clamping or wrapping. */
  function Rotated(p: Pose, d: Float3): Pose {
    p.(rotation := Add(p.rotation, d))
  }

  /** The pose after Scale(f): each scale component is multiplied by its factor. */
  function Scaled(p: Pose, f: Float3): Pose {
    p.(scale := Mul(p.scale, f))
  }

  /**
   * The quaternion queries a Transform answers but whose definitions are not
   * part of this model: `rotateOffset(pitchYawRoll, offset)` is a local offset
   * rotated into world space (what MoveRelative adds to the position) and
   * `forward(pitchYawRoll)` is the forward vector returned by GetFoward.
   */
  datatype OrientationOps = OrientationOps(rotateOffset: (Float3, Float3) -> Float3, forward: Float3 -> Float3)

  class Transform {
    var position: Float3
    var rotation: Float3
    var scale: Float3
    var worldMatrix: Matrix
    var worldInverseTranspose: Matrix

    /** The stored fields as a Pose. */
    function State(): Pose
      reads this
    {
      Pose(position, rotation, scale)
    }

    /** The matrices are what UpdateWorld computes from the current fields. */
    ghost predicate Derived()
      reads this
    {
      worldMatrix == World(State()) && worldInverseTranspose == InverseTransposeOf(worldMatrix)
    }

    /** The state the constructor leaves: identity pose, identity matrices. */
    ghost predicate Initial()
      reads this
    {
      State() == IdentityPose && worldMatrix == Identity && worldInverseTranspose == Identity
    }

    /**
     * The matrices are never stale: either derived from the fields, or the
     * constructor's identity matrices for the identity pose (the same matrix
     * as World(IdentityPose) in real arithmetic, but a different term here).
     */
    ghost predicate Valid()
      reads this
    {
      Derived() || Initial()
    }

    constructor ()
      ensures Initial() && Valid()
    {
      position := Zero3;
      rotation := Zero3;
      scale := One3;
      worldMatrix := Identity;
      worldInverseTranspose := Identity;
    }

    /** Both overloads: position := v. */
    method SetPosition(v: Float3)
      modifies this
      ensures State() == old(State()).(position := v)
      ensures Derived() && Valid()
    {
      position := v;
      UpdateWorld();
    }

    method SetRotation(pitch: real, yaw: real, roll: real)
      modifies this
      ensures State() == old(State()).(rotation := Float3(pitch, yaw, roll))
      ensures Derived() && Valid()
    {
      rotation := Float3(pitch, yaw, roll);
      UpdateWorld();
    }

    /** Both overloads: scale := v. */
    method SetScale(v: Float3)
      modifies this
      ensures State() == old(State()).(scale := v)
      ensures Derived() && Valid()
    {
      scale := v;
      UpdateWorld();
    }

    method GetPosition() returns (p: Float3)
      ensures p == position
    {
      p := position;
    }

    method GetPitchYawRoll() returns (r: Float3)
      ensures r == rotation
    {
      r := rotation;
    }

    method GetScale() returns (s: Float3)
      ensures s == scale
    {
      s := scale;
    }

    method GetWorldMatrix() returns (m: Matrix)
      ensures m == worldMatrix
      ensures Valid() ==> m == World(State()) || (State() == IdentityPose && m == Identity)
    {
      m := worldMatrix;
    }

    method GetWorldInverseTransposeMatrix() returns (m: Matrix)
      ensures m == worldInverseTranspose
      ensures Valid() ==> m == InverseTransposeOf(World(State())) || (State() == IdentityPose && m == Identity)
    {
      m := worldInverseTranspose;
    }

    /** Both overloads: assigns the position component by component (it does not offset it). */
    method MoveAbsolute(v: Float3)
      modifies this
      ensures State() == old(State()).(position := v)
      ensures Derived() && Valid()
    {
      position := position.(x := v.x);
      position := position.(y := v.y);
      position := position.(z := v.z);
      UpdateWorld();
    }

    /**
     * Adds the offset, rotated by the current orientation, to the position.
     * The rotation itself comes from `ops`.
     */
    method MoveRelative(offset: Float3, ops: OrientationOps)
      modifies this
      ensures State() == old(State()).(position := Add(old(position), ops.rotateOffset(old(rotation), offset)))
      ensures Derived() && Valid()
    {
      position := Add(position, ops.rotateOffset(rotation, offset));
      UpdateWorld();
    }

    /** Both overloads: load the rotation, add the delta, store it back. */
    method Rotate(d: Float3)
      modifies this
      ensures State() == Rotated(old(State()), d)
      ensures Derived() && Valid()
    {
      var rot := rotation;
      rot := Add(rot, d);
      rotation := rot;
      UpdateWorld();
    }

    /** Both overloads: each scale component is multiplied in place. */
    method Scale(f: Float3)
      modifies this
      ensures State() == Scaled(old(State()), f)
      ensures Derived() && Valid()
    {
      scale := scale.(x := scale.x * f.x);
      scale := scale.(y := scale.y * f.y);
      scale := scale.(z := scale.z * f.z);
      UpdateWorld();
    }

    /** Recomputes both derived matrices from the fields. */
    method UpdateWorld()
      modifies this`worldMatrix, this`worldInverseTranspose
      ensures worldMatrix == World(State())
      ensures worldInverseTranspose == InverseTransposeOf(worldMatrix)
    {
      var tr := Translation(position);
      var rt := RotationRollPitchYaw(rotation);
      var sc := Scaling(scale);
      var world := Multiply(Multiply(sc, rt), tr);
      worldMatrix := world;
      worldInverseTranspose := Inverse(Transpose(world));
    }
  }

  /** Rotate composes additively and a zero delta changes nothing. */
  lemma RotateAdds(p: Pose, a: Float3, b: Float3)
    ensures Rotated(Rotated(p, a), b) == Rotated(p, Add(a, b))
    ensures Rotated(p, Zero3) == p
    ensures Rotated(p, a).position == p.position && Rotated(p, a).scale == p.scale
  {
  }

  /** Rotate(d) followed by Rotate(-d) restores the pose. */
  lemma RotateUndo(p: Pose, d: Float3)
    ensures Rotated(Rotated(p, d), Float3(-d.x, -d.y, -d.z)) == p
  {
  }

  /** Scale composes multiplicatively, and a non-zero factor is undone by its reciprocal. */
  lemma ScaleMultiplies(p: Pose, f: Float3, g: Float3)
    ensures Scaled(Scaled(p, f), g) == Scaled(p, Mul(f, g))
    ensures Scaled(p, One3) == p
    ensures Scaled(p, f).position == p.position && Scaled(p, f).rotation == p.rotation
  {
  }

  lemma ScaleUndo(p: Pose, f: Float3)
    requires f.x != 0.0 && f.y != 0.0 && f.z != 0.0
    ensures Scaled(Scaled(p, f), Float3(1.0 / f.x, 1.0 / f.y, 1.0 / f.z)) == p
  {
  }

  /** SetScale(2,2,2) then Scale(0.5,0.5,0.5) gives the same pose and world matrix as SetScale(1,1,1). */
  lemma DoubleThenHalve(p: Pose)
    ensures Scaled(p.(scale := Float3(2.0, 2.0, 2.0)), Float3(0.5, 0.5, 0.5)) == p.(scale := One3)
    ensures World(Scaled(p.(scale := Float3(2.0, 2.0, 2.0)), Float3(0.5, 0.5, 0.5))) == World(p.(scale := One3))
  {
  }
}
