/**
 * The tuple helpers of Roberts/icosahedron.py (add, sub, mul, dot, cross),
 * and the floating-point primitives the pipeline calls but the model does
 * not interpret.
 */
module VecOps {
  import opened LinAlg

  /**
   * The floating-point primitives the source takes from Python's math module
   * and from its own sqrt-based normalize, as uninterpreted values:
   * phi = (1 + sqrt 5) / 2, normalize, atan2, cos, sin, pi, and the built-in round.
   */
  datatype FloatOps = FloatOps(
    phi: real,
    normalize: Vec3 -> Vec3,
    atan2: (real, real) -> real,
    cos: real -> real,
    sin: real -> real,
    pi: real,
    round: real -> int)

  /** add(a, b): componentwise sum; the displacement from a to the sum is b. */
  function Add(a: Vec3, b: Vec3): (r: Vec3)
    ensures Construct(a, r) == b
  {
    Vec3(a.x + b.x, a.y + b.y, a.z + b.z)
  }

  /** sub(a, b): componentwise difference, undone by adding b back. */
  function Sub(a: Vec3, b: Vec3): (r: Vec3)
    ensures Add(r, b) == a
    ensures r == Construct(b, a)
  {
    Vec3(a.x - b.x, a.y - b.y, a.z - b.z)
  }

  /** mul(a, s): scaling by s; scaling by 1 is the identity, by 0 the zero vector. */
  function Mul(a: Vec3, s: real): (r: Vec3)
    ensures s == 1.0 ==> r == a
    ensures s == 0.0 ==> r == Zero
  {
    Vec3(a.x * s, a.y * s, a.z * s)
  }

  /** dot(a, b): the scalar product. */
  function Dot(a: Vec3, b: Vec3): real
  {
    a.x * b.x + a.y * b.y + a.z * b.z
  }

  /** cross(a, b): the same formula as linalg.getN, orthogonal to both operands. */
  function Cross(a: Vec3, b: Vec3): (r: Vec3)
    ensures r == GetN(a, b)
    ensures Dot(r, a) == 0.0 && Dot(r, b) == 0.0
  {
    Vec3(a.y * b.z - a.z * b.y, a.z * b.x - a.x * b.z, a.x * b.y - a.y * b.x)
  }

  /** dot is symmetric and linear in its first argument. */
  lemma DotLaws(a: Vec3, b: Vec3, c: Vec3, s: real)
    ensures Dot(a, b) == Dot(b, a)
    ensures Dot(Add(a, c), b) == Dot(a, b) + Dot(c, b)
    ensures Dot(Mul(a, s), b) == s * Dot(a, b)
    ensures Dot(Neg(a), b) == -Dot(a, b)
  {
  }

  /** getN's output is orthogonal to both of its inputs, as a dot product. */
  lemma GetNOrthogonal(a: Vec3, b: Vec3)
    ensures Dot(GetN(a, b), a) == 0.0 && Dot(GetN(a, b), b) == 0.0
  {
  }
}
