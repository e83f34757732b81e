/** The part of the cgmath matrix vocabulary the skybox's render path uses,
    over idealised real arithmetic. As in cgmath, a matrix is stored as a
    sequence of columns: `m[c][r]` is the entry in column c, row r. */
module Matrices {

  type Vector3 = v: seq<real> | |v| == 3 witness [0.0, 0.0, 0.0]

  type Vector4 = v: seq<real> | |v| == 4 witness [0.0, 0.0, 0.0, 0.0]

  const Zero3: Vector3 := [0.0, 0.0, 0.0]

  const Zero4: Vector4 := [0.0, 0.0, 0.0, 0.0]

  /** Three columns. */
  type Matrix3 = m: seq<Vector3> | |m| == 3 witness [Zero3, Zero3, Zero3]

  /** Four columns. */
  type Matrix4 = m: seq<Vector4> | |m| == 4 witness [Zero4, Zero4, Zero4, Zero4]

  /** `Vector4::truncate`: drop the fourth component. */
  function Truncate(v: Vector4): (r: Vector3)
    ensures forall i :: 0 <= i < 3 ==> r[i] == v[i]
  {
    [v[0], v[1], v[2]]
  }

  /** `Matrix3::from_cols`. */
  function FromCols(c0: Vector3, c1: Vector3, c2: Vector3): (m: Matrix3)
    ensures m[0] == c0 && m[1] == c1 && m[2] == c2
  {
    [c0, c1, c2]
  }

  /** `Matrix4::from(Matrix3)`: the 3x3 matrix as the upper-left block of a
      homogeneous 4x4 matrix with no translation. */
  function Extend(m: Matrix3): (r: Matrix4)
    ensures forall c, i :: 0 <= c < 3 && 0 <= i < 3 ==> r[c][i] == m[c][i]
    ensures forall c :: 0 <= c < 3 ==> r[c][3] == 0.0
    ensures r[3] == [0.0, 0.0, 0.0, 1.0]
  {
    [ [m[0][0], m[0][1], m[0][2], 0.0],
      [m[1][0], m[1][1], m[1][2], 0.0],
      [m[2][0], m[2][1], m[2][2], 0.0],
      [0.0, 0.0, 0.0, 1.0] ]
  }

  const Identity: Matrix4 :=
    [[1.0, 0.0, 0.0, 0.0], [0.0, 1.0, 0.0, 0.0], [0.0, 0.0, 1.0, 0.0], [0.0, 0.0, 0.0, 1.0]]

  /** `Matrix4::from_translation(t)`: the identity with t in the fourth
      column. */
  function Translation(t: Vector3): Matrix4 {
    [[1.0, 0.0, 0.0, 0.0], [0.0, 1.0, 0.0, 0.0], [0.0, 0.0, 1.0, 0.0], [t[0], t[1], t[2], 1.0]]
  }

  /** Row r of a times column c of b. */
  function MulEntry(a: Matrix4, b: Matrix4, c: nat, r: nat): real
    requires c < 4 && r < 4
  {
    a[0][r] * b[c][0] + a[1][r] * b[c][1] + a[2][r] * b[c][2] + a[3][r] * b[c][3]
  }

  function MulCol(a: Matrix4, b: Matrix4, c: nat): (v: Vector4)
    requires c < 4
    ensures forall r :: 0 <= r < 4 ==> v[r] == MulEntry(a, b, c, r)
  {
    [MulEntry(a, b, c, 0), MulEntry(a, b, c, 1), MulEntry(a, b, c, 2), MulEntry(a, b, c, 3)]
  }

  /** The matrix product `a * b`, exact. */
  function Mul(a: Matrix4, b: Matrix4): (m: Matrix4)
    ensures forall c, r :: 0 <= c < 4 && 0 <= r < 4 ==> m[c][r] == MulEntry(a, b, c, r)
  {
    [MulCol(a, b, 0), MulCol(a, b, 1), MulCol(a, b, 2), MulCol(a, b, 3)]
  }

  /** Two matrices are equal when all sixteen entries are. */
  lemma MatrixExt(a: Matrix4, b: Matrix4)
    requires forall c, r :: 0 <= c < 4 && 0 <= r < 4 ==> a[c][r] == b[c][r]
    ensures a == b
  {
    forall c | 0 <= c < 4
      ensures a[c] == b[c]
    {
      assert a[c][0] == b[c][0] && a[c][1] == b[c][1] && a[c][2] == b[c][2] && a[c][3] == b[c][3];
    }
  }

  /** The identity is a right unit of the product. */
  lemma MulIdentity(a: Matrix4)
    ensures Mul(a, Identity) == a
  {
    var m := Mul(a, Identity);
    forall c, r | 0 <= c < 4 && 0 <= r < 4
      ensures m[c][r] == a[c][r]
    {
      assert c == 0 || c == 1 || c == 2 || c == 3;
    }
    MatrixExt(m, a);
  }
}
