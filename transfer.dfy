/** 5x5 transfer matrices acting on the ray vector [x, y, dx, dy, 1]:
    the affine first-order model of an optical element or of a chain of
    them, state_out = M * state_in. */
module Transfer {

  type Vec5 = v: seq<real> | |v| == 5 witness [0.0, 0.0, 0.0, 0.0, 0.0]

  type Mat5 = m: seq<seq<real>> | |m| == 5 && |m[0]| == 5 && |m[1]| == 5 && |m[2]| == 5 && |m[3]| == 5 && |m[4]| == 5
    witness [[0.0, 0.0, 0.0, 0.0, 0.0], [0.0, 0.0, 0.0, 0.0, 0.0], [0.0, 0.0, 0.0, 0.0, 0.0],
             [0.0, 0.0, 0.0, 0.0, 0.0], [0.0, 0.0, 0.0, 0.0, 0.0]]

  /** One row of a matrix applied to a state vector. */
  function Dot(row: seq<real>, v: Vec5): real
    requires |row| == 5
  {
    row[0] * v[0] + row[1] * v[1] + row[2] * v[2] + row[3] * v[3] + row[4] * v[4]
  }

  function MatVec(m: Mat5, v: Vec5): (w: Vec5)
    ensures forall i :: 0 <= i < 5 ==> w[i] == Dot(m[i], v)
  {
    [Dot(m[0], v), Dot(m[1], v), Dot(m[2], v), Dot(m[3], v), Dot(m[4], v)]
  }

  /** Entry (i, j) of the product a * b: row i of a against column j of b. */
  function Cell(a: Mat5, b: Mat5, i: nat, j: nat): real
    requires i < 5 && j < 5
  {
    a[i][0] * b[0][j] + a[i][1] * b[1][j] + a[i][2] * b[2][j] + a[i][3] * b[3][j] + a[i][4] * b[4][j]
  }

  /** The product a * b: the matrix of applying b, then a. */
  function MatMul(a: Mat5, b: Mat5): Mat5
  {
    [[Cell(a, b, 0, 0), Cell(a, b, 0, 1), Cell(a, b, 0, 2), Cell(a, b, 0, 3), Cell(a, b, 0, 4)],
     [Cell(a, b, 1, 0), Cell(a, b, 1, 1), Cell(a, b, 1, 2), Cell(a, b, 1, 3), Cell(a, b, 1, 4)],
     [Cell(a, b, 2, 0), Cell(a, b, 2, 1), Cell(a, b, 2, 2), Cell(a, b, 2, 3), Cell(a, b, 2, 4)],
     [Cell(a, b, 3, 0), Cell(a, b, 3, 1), Cell(a, b, 3, 2), Cell(a, b, 3, 3), Cell(a, b, 3, 4)],
     [Cell(a, b, 4, 0), Cell(a, b, 4, 1), Cell(a, b, 4, 2), Cell(a, b, 4, 3), Cell(a, b, 4, 4)]]
  }

  /** Two rows with equal entries are equal. */
  lemma RowEq(u: seq<real>, v: seq<real>)
    requires |u| == 5 && |v| == 5
    requires u[0] == v[0] && u[1] == v[1] && u[2] == v[2] && u[3] == v[3] && u[4] == v[4]
    ensures u == v
  {
  }

  /** Free-space drift over length l: position gains slope times l. */
  function Drift(l: real): Mat5
  {
    [[1.0, 0.0, l, 0.0, 0.0],
     [0.0, 1.0, 0.0, l, 0.0],
     [0.0, 0.0, 1.0, 0.0, 0.0],
     [0.0, 0.0, 0.0, 1.0, 0.0],
     [0.0, 0.0, 0.0, 0.0, 1.0]]
  }

  function Identity(): Mat5
  {
    [[1.0, 0.0, 0.0, 0.0, 0.0],
     [0.0, 1.0, 0.0, 0.0, 0.0],
     [0.0, 0.0, 1.0, 0.0, 0.0],
     [0.0, 0.0, 0.0, 1.0, 0.0],
     [0.0, 0.0, 0.0, 0.0, 1.0]]
  }

  /** The state a source point (px, py) with slopes (tx, ty) starts from. */
  function SourceState(px: real, py: real, tx: real, ty: real): (v: Vec5)
    ensures v[0] == px && v[1] == py && v[2] == tx && v[3] == ty && v[4] == 1.0
  {
    [px, py, tx, ty, 1.0]
  }

  lemma IdentityFixes(v: Vec5)
    ensures MatVec(Identity(), v) == v
  {
  }
}
