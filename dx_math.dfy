/**
 * The slice of DirectXMath the demo relies on: XMFLOAT3 / XMFLOAT4 values,
 * the constants XM_PI, XM_PIDIV2 and XM_PIDIV4, XMConvertToRadians, and the
 * matrix builders.
 *
 * Scalars are reals, not IEEE floats. Matrices are symbolic: a `Matrix` is
 * the expression DirectXMath would evaluate (`Multiply(Scaling(s), ...)`),
 * with every builder left uninterpreted. An equality between two `Matrix`
 * values therefore holds of the evaluated matrices too; the converse does not
 * (Scaling(1,1,1) and Identity are the same matrix but different terms), so
 * no lemma of the model concludes that two matrices differ.
 */
module DxMath {

  /** XMFLOAT3 */
  datatype Float3 = Float3(x: real, y: real, z: real)

  /** XMFLOAT4 */
  datatype Float4 = Float4(x: real, y: real, z: real, w: real)

  const Zero3: Float3 := Float3(0.0, 0.0, 0.0)
  const One3: Float3 := Float3(1.0, 1.0, 1.0)
  const UnitY: Float3 := Float3(0.0, 1.0, 0.0)

  /** XMVectorAdd on the three used lanes */
  function Add(a: Float3, b: Float3): Float3 {
    Float3(a.x + b.x, a.y + b.y, a.z + b.z)
  }

  /** Lane-by-lane product, as `scale.x *= x; scale.y *= y; scale.z *= z` */
  function Mul(a: Float3, b: Float3): Float3 {
    Float3(a.x * b.x, a.y * b.y, a.z * b.z)
  }

  /** The float literals DirectXMath defines for XM_PI, XM_PIDIV2, XM_PIDIV4 */
  const Pi: real := 3.141592654
  const PiDiv2: real := 1.570796327
  const PiDiv4: real := 0.785398163

  /** XMConvertToRadians: degrees * (XM_PI / 180) */
  function ConvertToRadians(degrees: real): real {
    degrees * (Pi / 180.0)
  }

  /**
   * A 4x4 matrix, as the DirectXMath call that produces it: XMMatrixIdentity,
   * XMMatrixScaling, XMMatrixRotationRollPitchYawFromVector,
   * XMMatrixTranslation, the XMMATRIX operator `*`, XMMatrixInverse,
   * XMMatrixTranspose, XMMatrixPerspectiveFovLH and XMMatrixLookToLH.
   */
  datatype Matrix =
    | Identity
    | Scaling(scale: Float3)
    | RotationRollPitchYaw(pitchYawRoll: Float3)
    | Translation(offset: Float3)
    | Multiply(left: Matrix, right: Matrix)
    | Inverse(m: Matrix)
    | Transpose(m: Matrix)
    | PerspectiveFovLH(fovAngleY: real, aspectRatio: real, nearZ: real, farZ: real)
    | LookToLH(eye: Float3, direction: Float3, up: Float3)
}
