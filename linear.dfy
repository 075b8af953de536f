/** Shared vocabulary of the matrix classes: square matrices of reals as
    nested sequences, the left-to-right partial sums their loops accumulate,
    and the snapshot of a freshly filled result array as a matrix value. */
module Linear {
  predicate IsMatrix(m: seq<seq<real>>, n: nat)
  {
    |m| == n && forall i :: 0 <= i < n ==> |m[i]| == n
  }

  type Mat4 = m: seq<seq<real>> | IsMatrix(m, 4)
    witness [[0.0, 0.0, 0.0, 0.0], [0.0, 0.0, 0.0, 0.0], [0.0, 0.0, 0.0, 0.0], [0.0, 0.0, 0.0, 0.0]]

  type Mat3 = m: seq<seq<real>> | IsMatrix(m, 3)
    witness [[0.0, 0.0, 0.0], [0.0, 0.0, 0.0], [0.0, 0.0, 0.0]]

  /** u[0]*v[0] + ... + u[n-1]*v[n-1], summed from index 0 upwards. */
  function DotPrefix(u: seq<real>, v: seq<real>, n: nat): real
    requires n <= |u| && n <= |v|
  {
    if n == 0 then 0.0 else DotPrefix(u, v, n - 1) + u[n - 1] * v[n - 1]
  }

  lemma Dot4(u: seq<real>, v: seq<real>)
    requires 4 <= |u| && 4 <= |v|
    ensures DotPrefix(u, v, 4) == u[0] * v[0] + u[1] * v[1] + u[2] * v[2] + u[3] * v[3]
  {
    assert DotPrefix(u, v, 1) == u[0] * v[0];
    assert DotPrefix(u, v, 2) == u[0] * v[0] + u[1] * v[1];
  }

  lemma Dot3(u: seq<real>, v: seq<real>)
    requires 3 <= |u| && 3 <= |v|
    ensures DotPrefix(u, v, 3) == u[0] * v[0] + u[1] * v[1] + u[2] * v[2]
  {
    assert DotPrefix(u, v, 1) == u[0] * v[0];
  }

  /** Column j of an n-row matrix. */
  function Column(m: seq<seq<real>>, n: nat, j: nat): (c: seq<real>)
    requires IsMatrix(m, n) && j < n
    ensures |c| == n
    ensures forall k :: 0 <= k < n ==> c[k] == m[k][j]
  {
    seq(n, k requires 0 <= k < n => m[k][j])
  }

  /** M·v for a 4×4 matrix and a 4-component column, with no division. */
  function MatVec4(m: Mat4, v: seq<real>): (r: seq<real>)
    requires |v| == 4
    ensures |r| == 4
    ensures forall i :: 0 <= i < 4 ==> r[i] == m[i][0] * v[0] + m[i][1] * v[1] + m[i][2] * v[2] + m[i][3] * v[3]
  {
    seq(4, i requires 0 <= i < 4 => m[i][0] * v[0] + m[i][1] * v[1] + m[i][2] * v[2] + m[i][3] * v[3])
  }

  /** M·v for a 3×3 matrix and a 3-component column. */
  function MatVec3(m: Mat3, v: seq<real>): (r: seq<real>)
    requires |v| == 3
    ensures |r| == 3
    ensures forall i :: 0 <= i < 3 ==> r[i] == m[i][0] * v[0] + m[i][1] * v[1] + m[i][2] * v[2]
  {
    seq(3, i requires 0 <= i < 3 => m[i][0] * v[0] + m[i][1] * v[1] + m[i][2] * v[2])
  }

  /** The matrix held in a Java float[n][n] result array. */
  function Snapshot(a: array2<real>, n: nat): (m: seq<seq<real>>)
    reads a
    requires a.Length0 == n && a.Length1 == n
    ensures IsMatrix(m, n)
    ensures forall i, j :: 0 <= i < n && 0 <= j < n ==> m[i][j] == a[i, j]
  {
    seq(n, i requires 0 <= i < n reads a => seq(n, j requires 0 <= j < n reads a => a[i, j]))
  }

  /** Two n×n matrices are equal when all their entries are. */
  lemma MatrixExt(x: seq<seq<real>>, y: seq<seq<real>>, n: nat)
    requires IsMatrix(x, n) && IsMatrix(y, n)
    requires forall i, j :: 0 <= i < n && 0 <= j < n ==> x[i][j] == y[i][j]
    ensures x == y
  {
    forall i | 0 <= i < n
      ensures x[i] == y[i]
    {
    }
  }
}
