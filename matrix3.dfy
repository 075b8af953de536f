/** The 3×3 float matrix of the math layer (Matrix3f), used for normals.
    Like Matrix4, a matrix is a value and the loop-built results are
    methods proved equal to the functions. */
module Matrix3 {
  import opened Wrappers
  import opened JavaMath
  import opened Linear
  import opened ColumnVectors
  import V3 = Vector3
  import M4 = Matrix4

  /** The singularity threshold 1e-10f of inverse. */
  const SINGULAR_EPSILON: real := 0.0000000001

  function Identity(): Mat3
  {
    seq(3, i requires 0 <= i < 3 => seq(3, j requires 0 <= j < 3 => if i == j then 1.0 else 0.0))
  }

  /** setIdentity on the backing array, which new Matrix3f() and identity() call. */
  method SetIdentity(a: array2<real>)
    requires a.Length0 == 3 && a.Length1 == 3
    modifies a
    ensures Snapshot(a, 3) == Identity()
  {
    for i := 0 to 3
      invariant forall i', j' :: 0 <= i' < i && 0 <= j' < 3 ==> a[i', j'] == (if i' == j' then 1.0 else 0.0)
    {
      for j := 0 to 3
        invariant forall i', j' :: 0 <= i' < i && 0 <= j' < 3 ==> a[i', j'] == (if i' == j' then 1.0 else 0.0)
        invariant forall j' :: 0 <= j' < j ==> a[i, j'] == (if i == j' then 1.0 else 0.0)
      {
        a[i, j] := if i == j then 1.0 else 0.0;
      }
    }
    MatrixExt(Snapshot(a, 3), Identity(), 3);
  }

  /** new Matrix3f() and Matrix3f.identity(): 1 exactly on the diagonal. */
  method NewIdentity() returns (m: Mat3)
    ensures forall i, j :: 0 <= i < 3 && 0 <= j < 3 ==> (m[i][j] == 1.0 <==> i == j)
    ensures forall i, j :: 0 <= i < 3 && 0 <= j < 3 && i != j ==> m[i][j] == 0.0
    ensures m == Identity()
  {
    var a := new real[3, 3];
    SetIdentity(a);
    m := Snapshot(a, 3);
  }

  /** new Matrix3f(float[][]): the outer length and row 0 must be 3. */
  function FromRows(rows: seq<seq<real>>): (r: Result<Mat3, string>)
    ensures r.Ok? <==> |rows| == 3 && |rows[0]| == 3 && forall i :: 1 <= i < 3 ==> |rows[i]| >= 3
    ensures |rows| != 3 || (|rows| == 3 && |rows[0]| != 3) ==> r == Err("Matrix must be 3x3")
    ensures r.Ok? ==> forall i, j :: 0 <= i < 3 && 0 <= j < 3 ==> r.value[i][j] == rows[i][j]
  {
    if |rows| != 3 || |rows[0]| != 3 then Err("Matrix must be 3x3")
    else if exists i :: 1 <= i < 3 && |rows[i]| < 3 then Err("ArrayIndexOutOfBoundsException")
    else
      var m: Mat3 := seq(3, i requires 0 <= i < 3 => rows[i][..3]);
      Ok(m)
  }

  function ProductEntry(a: Mat3, b: Mat3, i: nat, j: nat): real
    requires i < 3 && j < 3
  {
    a[i][0] * b[0][j] + a[i][1] * b[1][j] + a[i][2] * b[2][j]
  }

  function Product(a: Mat3, b: Mat3): (c: Mat3)
    ensures forall i, j :: 0 <= i < 3 && 0 <= j < 3 ==> c[i][j] == ProductEntry(a, b, i, j)
  {
    seq(3, i requires 0 <= i < 3 => seq(3, j requires 0 <= j < 3 => ProductEntry(a, b, i, j)))
  }

  /** mul(Matrix3f): the triple loop of sum accumulators. */
  method Mul(a: Mat3, b: Mat3) returns (c: Mat3)
    ensures c == Product(a, b)
  {
    var result := new real[3, 3];
    for i := 0 to 3
      invariant forall i', j' :: 0 <= i' < i && 0 <= j' < 3 ==> result[i', j'] == ProductEntry(a, b, i', j')
    {
      for j := 0 to 3
        invariant forall i', j' :: 0 <= i' < i && 0 <= j' < 3 ==> result[i', j'] == ProductEntry(a, b, i', j')
        invariant forall j' :: 0 <= j' < j ==> result[i, j'] == ProductEntry(a, b, i, j')
      {
        var col := Column(b, 3, j);
        var sum := 0.0;
        for k := 0 to 3
          invariant sum == DotPrefix(a[i], col, k)
        {
          sum := sum + a[i][k] * b[k][j];
        }
        Dot3(a[i], col);
        result[i, j] := sum;
      }
    }
    c := Snapshot(result, 3);
    MatrixExt(c, Product(a, b), 3);
  }

  lemma IdentityNeutral(a: Mat3)
    ensures Product(Identity(), a) == a
    ensures Product(a, Identity()) == a
  {
    MatrixExt(Product(Identity(), a), a, 3);
    MatrixExt(Product(a, Identity()), a, 3);
  }

  /** mul(ColumnVector): M·v for a 3-component vector; other sizes throw. */
  method MulColumn(m: Mat3, v: ColumnVector) returns (r: Result<ColumnVector, string>)
    ensures r.Ok? <==> v.Size() == 3
    ensures r.Err? ==> r.error == "Vector must have 3 components"
    ensures r.Ok? ==> r.value.data == MatVec3(m, v.data)
  {
    if v.Size() != 3 {
      return Err("Vector must have 3 components");
    }
    var result := new real[3];
    for i := 0 to 3
      invariant forall k :: 0 <= k < i ==> result[k] == MatVec3(m, v.data)[k]
    {
      var sum := 0.0;
      for j := 0 to 3
        invariant sum == DotPrefix(m[i], v.data, j)
      {
        sum := sum + m[i][j] * v.data[j];
      }
      Dot3(m[i], v.data);
      result[i] := sum;
    }
    assert result[..] == MatVec3(m, v.data);
    r := Ok(ColumnVector(result[..]));
  }

  /** What mul(Vector3f) returns: M·(x, y, z). */
  function Transform(m: Mat3, v: V3.Vector3f): V3.Vector3f
  {
    var p := MatVec3(m, [v.x, v.y, v.z]);
    V3.Vector3f(p[0], p[1], p[2])
  }

  method MulVector(m: Mat3, v: V3.Vector3f) returns (r: V3.Vector3f)
    ensures r == Transform(m, v)
  {
    var column := MulColumn(m, Of([v.x, v.y, v.z]));
    var back := ToVector3f(column.value);
    r := back.value;
  }

  function Transpose(m: Mat3): (t: Mat3)
    ensures forall i, j :: 0 <= i < 3 && 0 <= j < 3 ==> t[i][j] == m[j][i]
  {
    seq(3, i requires 0 <= i < 3 => seq(3, j requires 0 <= j < 3 => m[j][i]))
  }

  lemma TransposeInvolution(m: Mat3)
    ensures Transpose(Transpose(m)) == m
  {
    MatrixExt(Transpose(Transpose(m)), m, 3);
  }

  method TransposeMethod(m: Mat3) returns (t: Mat3)
    ensures t == Transpose(m)
  {
    var result := new real[3, 3];
    for i := 0 to 3
      invariant forall i', j' :: 0 <= i' < i && 0 <= j' < 3 ==> result[i', j'] == m[j'][i']
    {
      for j := 0 to 3
        invariant forall i', j' :: 0 <= i' < i && 0 <= j' < 3 ==> result[i', j'] == m[j'][i']
        invariant forall j' :: 0 <= j' < j ==> result[i, j'] == m[j'][i]
      {
        result[i, j] := m[j][i];
      }
    }
    t := Snapshot(result, 3);
    MatrixExt(t, Transpose(m), 3);
  }

  /** determinant: cofactor expansion along row 0. */
  function Determinant(m: Mat3): real
  {
    m[0][0] * (m[1][1] * m[2][2] - m[1][2] * m[2][1])
    - m[0][1] * (m[1][0] * m[2][2] - m[1][2] * m[2][0])
    + m[0][2] * (m[1][0] * m[2][1] - m[1][1] * m[2][0])
  }

  lemma DeterminantOfIdentity()
    ensures Determinant(Identity()) == 1.0
  {
    var i := Identity();
    assert i[0] == [1.0, 0.0, 0.0] && i[1] == [0.0, 1.0, 0.0] && i[2] == [0.0, 0.0, 1.0];
  }

  /** The cofactor matrix inverse scales by 1/det. */
  function Adjugate(m: Mat3): Mat3
  {
    var a, b, c := m[0][0], m[0][1], m[0][2];
    var d, e, f := m[1][0], m[1][1], m[1][2];
    var g, h, k := m[2][0], m[2][1], m[2][2];
    [[e * k - f * h, c * h - b * k, b * f - c * e],
     [f * g - d * k, a * k - c * g, c * d - a * f],
     [d * h - e * g, b * g - a * h, a * e - b * d]]
  }

  function Scaled(a: Mat3, s: real): (c: Mat3)
    ensures forall i, j :: 0 <= i < 3 && 0 <= j < 3 ==> c[i][j] == a[i][j] * s
  {
    seq(3, i requires 0 <= i < 3 => seq(3, j requires 0 <= j < 3 => a[i][j] * s))
  }

  /** inverse: an ArithmeticException when |det| < 1e-10, adjugate·(1/det) otherwise. */
  function Inverse(m: Mat3): (r: Result<Mat3, string>)
    ensures r.Err? <==> Abs(Determinant(m)) < SINGULAR_EPSILON
    ensures r.Err? ==> r.error == "Matrix is singular, cannot compute inverse"
  {
    var det := Determinant(m);
    if Abs(det) < SINGULAR_EPSILON then Err("Matrix is singular, cannot compute inverse")
    else Ok(Scaled(Adjugate(m), 1.0 / det))
  }

  function Row(m: Mat3, i: nat): V3.Vector3f
    requires i < 3
  {
    V3.Vector3f(m[i][0], m[i][1], m[i][2])
  }

  function Col(m: Mat3, j: nat): V3.Vector3f
    requires j < 3
  {
    V3.Vector3f(m[0][j], m[1][j], m[2][j])
  }

  /** Column j of the adjugate is the cross product of the two other rows. */
  lemma AdjugateColumn0(m: Mat3)
    ensures Col(Adjugate(m), 0) == V3.Cross(Row(m, 1), Row(m, 2))
  {
    var adj, c := Adjugate(m), V3.Cross(Row(m, 1), Row(m, 2));
    assert adj[0][0] == c.x && adj[1][0] == c.y && adj[2][0] == c.z;
  }

  lemma AdjugateColumn1(m: Mat3)
    ensures Col(Adjugate(m), 1) == V3.Cross(Row(m, 2), Row(m, 0))
  {
    var adj, c := Adjugate(m), V3.Cross(Row(m, 2), Row(m, 0));
    assert adj[0][1] == c.x && adj[1][1] == c.y && adj[2][1] == c.z;
  }

  lemma AdjugateColumn2(m: Mat3)
    ensures Col(Adjugate(m), 2) == V3.Cross(Row(m, 0), Row(m, 1))
  {
    var adj, c := Adjugate(m), V3.Cross(Row(m, 0), Row(m, 1));
    assert adj[0][2] == c.x && adj[1][2] == c.y && adj[2][2] == c.z;
  }

  /** An entry of a product is a row dotted with a column. */
  lemma ProductEntryIsDot(a: Mat3, b: Mat3, i: nat, j: nat)
    requires i < 3 && j < 3
    ensures ProductEntry(a, b, i, j) == V3.Dot(Row(a, i), Col(b, j))
  {
  }

  /** The scalar triple product is invariant under cyclic shifts. */
  lemma TripleProductCyclic(u: V3.Vector3f, v: V3.Vector3f, w: V3.Vector3f)
    ensures V3.Dot(u, V3.Cross(v, w)) == V3.Dot(v, V3.Cross(w, u))
  {
  }

  lemma ProductWithAdjugate(m: Mat3)
    ensures Product(m, Adjugate(m)) == Scaled(Identity(), Determinant(m))
  {
    var adj := Adjugate(m);
    var l := Product(m, adj);
    var r := Scaled(Identity(), Determinant(m));
    AdjugateColumn0(m);
    AdjugateColumn1(m);
    AdjugateColumn2(m);
    var r0, r1, r2 := Row(m, 0), Row(m, 1), Row(m, 2);
    assert Determinant(m) == V3.Dot(r0, V3.Cross(r1, r2));
    TripleProductCyclic(r0, r1, r2);
    TripleProductCyclic(r1, r2, r0);
    V3.CrossOrthogonal(r1, r2);
    V3.CrossOrthogonal(r2, r0);
    V3.CrossOrthogonal(r0, r1);
    forall i, j | 0 <= i < 3 && 0 <= j < 3
      ensures l[i][j] == r[i][j]
    {
      ProductEntryIsDot(m, adj, i, j);
    }
    MatrixExt(l, r, 3);
  }

  lemma ProductScaled(a: Mat3, b: Mat3, k: real)
    ensures Product(a, Scaled(b, k)) == Scaled(Product(a, b), k)
  {
    var l := Product(a, Scaled(b, k));
    var r := Scaled(Product(a, b), k);
    forall i, j | 0 <= i < 3 && 0 <= j < 3
      ensures l[i][j] == r[i][j]
    {
      ScaledProductEntry(a, b, k, i, j);
    }
    MatrixExt(l, r, 3);
  }

  lemma ScaledProductEntry(a: Mat3, b: Mat3, k: real, i: nat, j: nat)
    requires i < 3 && j < 3
    ensures ProductEntry(a, Scaled(b, k), i, j) == ProductEntry(a, b, i, j) * k
  {
    var s := Scaled(b, k);
    assert s[0][j] == b[0][j] * k && s[1][j] == b[1][j] * k && s[2][j] == b[2][j] * k;
    ScaleSum3(a[i][0], a[i][1], a[i][2], b[0][j], b[1][j], b[2][j], k);
  }

  lemma ScaleSum3(x0: real, x1: real, x2: real, y0: real, y1: real, y2: real, k: real)
    ensures x0 * (y0 * k) + x1 * (y1 * k) + x2 * (y2 * k) == (x0 * y0 + x1 * y1 + x2 * y2) * k
  {
  }

  /** Over reals, a matrix times its computed inverse is the identity. */
  lemma InverseIsRightInverse(m: Mat3)
    requires Inverse(m).Ok?
    ensures Product(m, Inverse(m).value) == Identity()
  {
    var det := Determinant(m);
    var k := 1.0 / det;
    assert det * k == 1.0;
    ProductScaled(m, Adjugate(m), k);
    ProductWithAdjugate(m);
    var l := Product(m, Inverse(m).value);
    forall i, j | 0 <= i < 3 && 0 <= j < 3
      ensures l[i][j] == Identity()[i][j]
    {
      assert l[i][j] == (Identity()[i][j] * det) * k;
    }
    MatrixExt(l, Identity(), 3);
  }

  /** fromMatrix4f: the upper-left 3×3 block. */
  function UpperLeft(m: Mat4): (r: Mat3)
    ensures forall i, j :: 0 <= i < 3 && 0 <= j < 3 ==> r[i][j] == m[i][j]
  {
    seq(3, i requires 0 <= i < 3 => seq(3, j requires 0 <= j < 3 => m[i][j]))
  }

  method FromMatrix4(m: Mat4) returns (r: Mat3)
    ensures r == UpperLeft(m)
  {
    var m3 := new real[3, 3];
    for i := 0 to 3
      invariant forall i', j' :: 0 <= i' < i && 0 <= j' < 3 ==> m3[i', j'] == m[i'][j']
    {
      for j := 0 to 3
        invariant forall i', j' :: 0 <= i' < i && 0 <= j' < 3 ==> m3[i', j'] == m[i'][j']
        invariant forall j' :: 0 <= j' < j ==> m3[i, j'] == m[i][j']
      {
        m3[i, j] := m[i][j];
      }
    }
    r := Snapshot(m3, 3);
    MatrixExt(r, UpperLeft(m), 3);
  }

  /** normalMatrix: the transposed inverse of the upper-left block; a
      singular block makes it throw. */
  function NormalMatrix(m: Mat4): (r: Result<Mat3, string>)
    ensures r.Err? <==> Abs(Determinant(UpperLeft(m))) < SINGULAR_EPSILON
    ensures r.Ok? ==> r.value == Transpose(Inverse(UpperLeft(m)).value)
  {
    match Inverse(UpperLeft(m))
    case Ok(inv) => Ok(Transpose(inv))
    case Err(e) => Err(e)
  }
}
