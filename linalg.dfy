/**
 * Roberts/linalg.py: points and vectors as real triples, the cross product
 * that gives face normals, and the 4x4 homogeneous matrix products.
 * Coordinates are exact reals: the model has no rounding.
 */
module LinAlg {

  /** A linalg.Point or linalg.Vector: three real coordinates. */
  datatype Vec3 = Vec3(x: real, y: real, z: real)

  const Zero: Vec3 := Vec3(0.0, 0.0, 0.0)

  function Neg(v: Vec3): Vec3 { Vec3(-v.x, -v.y, -v.z) }

  /** Vector.construct(p1, p2): the displacement that carries p1 onto p2. */
  function Construct(p1: Vec3, p2: Vec3): (v: Vec3)
    ensures Vec3(p1.x + v.x, p1.y + v.y, p1.z + v.z) == p2
    ensures p1 == p2 ==> v == Zero
  {
    Vec3(p2.x - p1.x, p2.y - p1.y, p2.z - p1.z)
  }

  /** getN(v1, v2): the cross product v1 x v2, a normal of the plane the two span. */
  function GetN(v1: Vec3, v2: Vec3): (n: Vec3)
    ensures n.x * v1.x + n.y * v1.y + n.z * v1.z == 0.0
    ensures n.x * v2.x + n.y * v2.y + n.z * v2.z == 0.0
  {
    Vec3(v1.y * v2.z - v1.z * v2.y,
         v1.z * v2.x - v1.x * v2.z,
         v1.x * v2.y - v1.y * v2.x)
  }

  /** Swapping the operands of getN flips the normal; a vector with itself gives none. */
  lemma GetNAntisymmetric(a: Vec3, b: Vec3)
    ensures GetN(b, a) == Neg(GetN(a, b))
    ensures GetN(a, a) == Zero
  {
  }

  // ---------------------------------------------------------------------------
  // 4x4 matrices and homogeneous 4-vectors, as the source's lists of lists.

  /** What MdotM and MdotV index: at least four rows of at least four entries. */
  predicate HasEntries4(m: seq<seq<real>>)
  {
    |m| >= 4 && forall i :: 0 <= i < 4 ==> |m[i]| >= 4
  }

  /** A 4x4 matrix, the shape both products return. */
  predicate IsMatrix4(m: seq<seq<real>>)
  {
    |m| == 4 && forall i :: 0 <= i < 4 ==> |m[i]| == 4
  }

  /** The sum M1[i][0]*M2[0][j] + ... + M1[i][k-1]*M2[k-1][j], accumulated from 0 in the loop's order. */
  function RowTimesColumn(M1: seq<seq<real>>, M2: seq<seq<real>>, i: nat, j: nat, k: nat): real
    requires HasEntries4(M1) && HasEntries4(M2) && i < 4 && j < 4 && k <= 4
  {
    if k == 0 then 0.0 else RowTimesColumn(M1, M2, i, j, k - 1) + M1[i][k - 1] * M2[k - 1][j]
  }

  /** The sum M[i][0]*V[0] + ... + M[i][k-1]*V[k-1], accumulated from 0 in the loop's order. */
  function RowTimesVector(M: seq<seq<real>>, V: seq<real>, i: nat, k: nat): real
    requires HasEntries4(M) && |V| >= 4 && i < 4 && k <= 4
  {
    if k == 0 then 0.0 else RowTimesVector(M, V, i, k - 1) + M[i][k - 1] * V[k - 1]
  }

  /** The matrix product, entry by entry. */
  function MatMul(M1: seq<seq<real>>, M2: seq<seq<real>>): (M: seq<seq<real>>)
    requires HasEntries4(M1) && HasEntries4(M2)
    ensures IsMatrix4(M)
  {
    seq(4, i requires 0 <= i < 4 =>
      seq(4, j requires 0 <= j < 4 => RowTimesColumn(M1, M2, i, j, 4)))
  }

  /** The matrix-vector product, entry by entry. */
  function MatVec(M: seq<seq<real>>, V: seq<real>): (R: seq<real>)
    requires HasEntries4(M) && |V| >= 4
    ensures |R| == 4
  {
    seq(4, i requires 0 <= i < 4 => RowTimesVector(M, V, i, 4))
  }

  /** The closed form of one product entry. */
  lemma MatMulEntry(M1: seq<seq<real>>, M2: seq<seq<real>>, i: nat, j: nat)
    requires HasEntries4(M1) && HasEntries4(M2) && i < 4 && j < 4
    ensures MatMul(M1, M2)[i][j]
         == M1[i][0] * M2[0][j] + M1[i][1] * M2[1][j] + M1[i][2] * M2[2][j] + M1[i][3] * M2[3][j]
  {
    assert RowTimesColumn(M1, M2, i, j, 1) == M1[i][0] * M2[0][j];
    assert RowTimesColumn(M1, M2, i, j, 2) == RowTimesColumn(M1, M2, i, j, 1) + M1[i][1] * M2[1][j];
    assert RowTimesColumn(M1, M2, i, j, 3) == RowTimesColumn(M1, M2, i, j, 2) + M1[i][2] * M2[2][j];
  }

  /** The closed form of one matrix-vector entry. */
  lemma MatVecEntry(M: seq<seq<real>>, V: seq<real>, i: nat)
    requires HasEntries4(M) && |V| >= 4 && i < 4
    ensures MatVec(M, V)[i] == M[i][0] * V[0] + M[i][1] * V[1] + M[i][2] * V[2] + M[i][3] * V[3]
  {
    assert RowTimesVector(M, V, i, 1) == M[i][0] * V[0];
    assert RowTimesVector(M, V, i, 2) == RowTimesVector(M, V, i, 1) + M[i][1] * V[1];
    assert RowTimesVector(M, V, i, 3) == RowTimesVector(M, V, i, 2) + M[i][2] * V[2];
  }

  const Identity: seq<seq<real>> :=
    [[1.0, 0.0, 0.0, 0.0],
     [0.0, 1.0, 0.0, 0.0],
     [0.0, 0.0, 1.0, 0.0],
     [0.0, 0.0, 0.0, 1.0]]

  /** The identity matrix is a left and a right unit of MatMul. */
  lemma IdentityIsUnit(A: seq<seq<real>>)
    requires IsMatrix4(A)
    ensures MatMul(Identity, A) == A
    ensures MatMul(A, Identity) == A
  {
    forall i, j | 0 <= i < 4 && 0 <= j < 4
      ensures MatMul(Identity, A)[i][j] == A[i][j] && MatMul(A, Identity)[i][j] == A[i][j]
    {
      MatMulEntry(Identity, A, i, j);
      MatMulEntry(A, Identity, i, j);
    }
    assert forall i | 0 <= i < 4 :: MatMul(Identity, A)[i] == A[i] && MatMul(A, Identity)[i] == A[i];
  }

  /** Applying a product is applying its factors in turn, right factor first. */
  lemma MatVecOfMatMul(A: seq<seq<real>>, B: seq<seq<real>>, v: seq<real>)
    requires HasEntries4(A) && HasEntries4(B) && |v| >= 4
    ensures MatVec(MatMul(A, B), v) == MatVec(A, MatVec(B, v))
  {
    var AB := MatMul(A, B);
    var Bv := MatVec(B, v);
    forall i | 0 <= i < 4 ensures MatVec(AB, v)[i] == MatVec(A, Bv)[i] {
      MatVecEntry(AB, v, i);
      MatVecEntry(A, Bv, i);
      forall k | 0 <= k < 4 ensures Bv[k] == B[k][0] * v[0] + B[k][1] * v[1] + B[k][2] * v[2] + B[k][3] * v[3] {
        MatVecEntry(B, v, k);
      }
      forall j | 0 <= j < 4
        ensures AB[i][j] == A[i][0] * B[0][j] + A[i][1] * B[1][j] + A[i][2] * B[2][j] + A[i][3] * B[3][j]
      {
        MatMulEntry(A, B, i, j);
      }
    }
  }

  /** The last row of an affine transform. */
  predicate IsAffine(M: seq<seq<real>>)
    requires HasEntries4(M)
  {
    M[3][0] == 0.0 && M[3][1] == 0.0 && M[3][2] == 0.0 && M[3][3] == 1.0
  }

  /** An affine matrix keeps the homogeneous coordinate 1, so dropping it loses nothing. */
  lemma AffineKeepsHomogeneous(M: seq<seq<real>>, V: seq<real>)
    requires HasEntries4(M) && IsAffine(M) && |V| >= 4 && V[3] == 1.0
    ensures MatVec(M, V)[3] == 1.0
  {
    MatVecEntry(M, V, 3);
  }

  /** The product of two affine matrices is affine. */
  lemma MatMulAffine(A: seq<seq<real>>, B: seq<seq<real>>)
    requires HasEntries4(A) && HasEntries4(B) && IsAffine(A) && IsAffine(B)
    ensures IsAffine(MatMul(A, B))
  {
    MatMulEntry(A, B, 3, 0);
    MatMulEntry(A, B, 3, 1);
    MatMulEntry(A, B, 3, 2);
    MatMulEntry(A, B, 3, 3);
  }

  /** MdotM: the triple loop accumulating M[i][j] += M1[i][k] * M2[k][j] into a zero matrix. */
  method MdotM(M1: seq<seq<real>>, M2: seq<seq<real>>) returns (M: seq<seq<real>>)
    requires HasEntries4(M1) && HasEntries4(M2)
    ensures M == MatMul(M1, M2)
  {
    M := [[0.0, 0.0, 0.0, 0.0], [0.0, 0.0, 0.0, 0.0], [0.0, 0.0, 0.0, 0.0], [0.0, 0.0, 0.0, 0.0]];
    for i := 0 to 4
      invariant IsMatrix4(M)
      invariant forall r, c :: 0 <= r < i && 0 <= c < 4 ==> M[r][c] == RowTimesColumn(M1, M2, r, c, 4)
      invariant forall r, c :: i <= r < 4 && 0 <= c < 4 ==> M[r][c] == 0.0
    {
      for j := 0 to 4
        invariant IsMatrix4(M)
        invariant forall r, c :: 0 <= r < i && 0 <= c < 4 ==> M[r][c] == RowTimesColumn(M1, M2, r, c, 4)
        invariant forall c :: 0 <= c < j ==> M[i][c] == RowTimesColumn(M1, M2, i, c, 4)
        invariant forall r, c :: i <= r < 4 && 0 <= c < 4 && (r > i || c >= j) ==> M[r][c] == 0.0
      {
        for k := 0 to 4
          invariant IsMatrix4(M)
          invariant forall r, c :: 0 <= r < i && 0 <= c < 4 ==> M[r][c] == RowTimesColumn(M1, M2, r, c, 4)
          invariant forall c :: 0 <= c < j ==> M[i][c] == RowTimesColumn(M1, M2, i, c, 4)
          invariant M[i][j] == RowTimesColumn(M1, M2, i, j, k)
          invariant forall r, c :: i <= r < 4 && 0 <= c < 4 && (r > i || c > j) ==> M[r][c] == 0.0
        {
          M := M[i := M[i][j := M[i][j] + M1[i][k] * M2[k][j]]];
        }
      }
    }
    assert forall r | 0 <= r < 4 :: M[r] == MatMul(M1, M2)[r];
  }

  /** MdotV: the double loop accumulating R[i] += M[i][j] * V[j] into a zero vector. */
  method MdotV(M: seq<seq<real>>, V: seq<real>) returns (R: seq<real>)
    requires HasEntries4(M) && |V| >= 4
    ensures R == MatVec(M, V)
  {
    R := [0.0, 0.0, 0.0, 0.0];
    for i := 0 to 4
      invariant |R| == 4
      invariant forall r :: 0 <= r < i ==> R[r] == RowTimesVector(M, V, r, 4)
      invariant forall r :: i <= r < 4 ==> R[r] == 0.0
    {
      for j := 0 to 4
        invariant |R| == 4
        invariant forall r :: 0 <= r < i ==> R[r] == RowTimesVector(M, V, r, 4)
        invariant R[i] == RowTimesVector(M, V, i, j)
        invariant forall r :: i < r < 4 ==> R[r] == 0.0
      {
        R := R[i := R[i] + M[i][j] * V[j]];
      }
    }
  }
}
