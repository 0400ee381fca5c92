/**
 Shared vocabulary of the 2D global-illumination core: optional values and
 results, the small vector and matrix types the CPU side manipulates (with
 `real` standing in for `f32`), the computed target sizes, and the constants
 every stage agrees on.
 */
module Common {

  datatype Option<+T> = None | Some(value: T)

  datatype Result<+R, +E> = Ok(value: R) | Err(error: E)

  /** Side length of a screen probe; the frame counter cycles through its square. */
  const ProbeSize: int := 8

  /** Period of the rotating frame counter: the probe size squared, 8 * 8. */
  const FrameCycle: int := 64

  /** Edge length of a compute workgroup, in texels. */
  const WorkgroupSize: nat := 8

  /** Number of distinct values of a 32-bit unsigned integer. */
  const U32Modulus: int := 0x1_0000_0000

  datatype Vec2 = Vec2(x: real, y: real)

  datatype Vec3 = Vec3(x: real, y: real, z: real)

  /** A quaternion (x, y, z, w), the layout of a rotation. */
  datatype Quat = Quat(x: real, y: real, z: real, w: real)

  /** Signed integer pair (`IVec2`). */
  datatype IVec2 = IVec2(x: int, y: int)

  /** Unsigned integer pair (`UVec2`). */
  datatype UVec2 = UVec2(x: nat, y: nat)

  const ZeroVec2: Vec2 := Vec2(0.0, 0.0)
  const ZeroVec3: Vec3 := Vec3(0.0, 0.0, 0.0)

  /** A 4x4 matrix stored column-major: element (column c, row r) is at 4 * c + r. */
  type Mat4 = m: seq<real> | |m| == 16
    witness [1.0, 0.0, 0.0, 0.0, 0.0, 1.0, 0.0, 0.0,
             0.0, 0.0, 1.0, 0.0, 0.0, 0.0, 0.0, 1.0]

  const Identity: Mat4 := [1.0, 0.0, 0.0, 0.0, 0.0, 1.0, 0.0, 0.0,
                           0.0, 0.0, 1.0, 0.0, 0.0, 0.0, 0.0, 1.0]

  function Abs(x: real): (r: real)
    ensures r >= 0.0
    ensures r == x || r == -x
  {
    if x < 0.0 then -x else x
  }

  lemma MulNonNegative(x: real, y: real)
    requires x >= 0.0 && y >= 0.0
    ensures x * y >= 0.0
  {
  }

  function Max(a: real, b: real): (r: real)
    ensures r >= a && r >= b
    ensures r == a || r == b
  {
    if a < b then b else a
  }

  function AddVec3(a: Vec3, b: Vec3): Vec3
  {
    Vec3(a.x + b.x, a.y + b.y, a.z + b.z)
  }

  function SubVec3(a: Vec3, b: Vec3): Vec3
  {
    Vec3(a.x - b.x, a.y - b.y, a.z - b.z)
  }

  function ScaleVec3(a: Vec3, s: real): Vec3
  {
    Vec3(a.x * s, a.y * s, a.z * s)
  }

  function LengthSquared(v: Vec3): (r: real)
    ensures r >= 0.0
  {
    v.x * v.x + v.y * v.y + v.z * v.z
  }

  /** Drops the z component (`Vec3::truncate`, also `xy()`). */
  function Truncate(v: Vec3): Vec2
  {
    Vec2(v.x, v.y)
  }

  /** Matrix product `a * b` in the column-major layout. */
  function MatMul(a: Mat4, b: Mat4): Mat4
  {
    seq(16, i requires 0 <= i < 16 =>
      var c := i / 4;
      var r := i % 4;
      a[r] * b[4 * c] + a[4 + r] * b[4 * c + 1] + a[8 + r] * b[4 * c + 2] + a[12 + r] * b[4 * c + 3])
  }

  /** The largest absolute element-wise difference of the first `n` elements, folded from 0. */
  function MaxAbsDiffPrefix(a: Mat4, b: Mat4, n: nat): (r: real)
    requires n <= 16
    ensures r >= 0.0
    ensures forall i :: 0 <= i < n ==> Abs(a[i] - b[i]) <= r
    ensures r == 0.0 || exists i :: 0 <= i < n && r == Abs(a[i] - b[i])
  {
    if n == 0 then 0.0 else Max(MaxAbsDiffPrefix(a, b, n - 1), Abs(a[n - 1] - b[n - 1]))
  }

  /** Largest absolute element-wise difference of two matrices. */
  function MaxAbsDiff(a: Mat4, b: Mat4): real
  {
    MaxAbsDiffPrefix(a, b, 16)
  }

  /** `MaxAbsDiff` exceeds a non-negative bound exactly when some element pair differs by more. */
  lemma MaxAbsDiffExceeds(a: Mat4, b: Mat4, bound: real)
    requires bound >= 0.0
    ensures MaxAbsDiff(a, b) > bound <==> exists i :: 0 <= i < 16 && Abs(a[i] - b[i]) > bound
  {
    var r := MaxAbsDiff(a, b);
    if r > bound {
      var i :| 0 <= i < 16 && r == Abs(a[i] - b[i]);
    }
  }

  /** The `as u32` cast of a 32-bit signed value: two's-complement reinterpretation. */
  function AsU32(x: int): (r: nat)
    ensures r < U32Modulus
    ensures 0 <= x < U32Modulus ==> r == x
    ensures -U32Modulus <= x < 0 ==> r == x + U32Modulus
  {
    x % U32Modulus
  }

  /**
   The resolution bookkeeping the pipeline reads (`ComputedTargetSizes`): the
   primary target as floats, signed and unsigned integers, the SDF target and
   the probe grid. How these are derived from the window is not part of this
   model; they are inputs.
   */
  datatype TargetSizes = TargetSizes(
    primarySize: Vec2,
    primaryISize: IVec2,
    primaryUSize: UVec2,
    sdfUSize: UVec2,
    probeGridISize: IVec2,
    probeGridUSize: UVec2)
}
