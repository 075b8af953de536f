/** The 4×4 float matrix of the math layer (Matrix4f), for column vectors.
    A matrix is a value; the Java methods that fill a fresh float[4][4]
    with nested loops are methods proved equal to the functions below. */
module Matrix4 {
  import opened Wrappers
  import opened JavaMath
  import opened Linear
  import opened ColumnVectors
  import V3 = Vector3

  function Identity(): (m: Mat4)
  {
    seq(4, i requires 0 <= i < 4 => seq(4, j requires 0 <= j < 4 => if i == j then 1.0 else 0.0))
  }

  /** set(row, col, value) on a matrix value. */
  function Set(m: Mat4, row: nat, col: nat, value: real): (r: Mat4)
    requires row < 4 && col < 4
    ensures r[row][col] == value
    ensures forall i, j :: 0 <= i < 4 && 0 <= j < 4 && (i != row || j != col) ==> r[i][j] == m[i][j]
  {
    m[row := m[row][col := value]]
  }

  /** setIdentity on the backing array, which new Matrix4f() and identity() call. */
  method SetIdentity(a: array2<real>)
    requires a.Length0 == 4 && a.Length1 == 4
    modifies a
    ensures Snapshot(a, 4) == Identity()
  {
    for i := 0 to 4
      invariant forall i', j' :: 0 <= i' < i && 0 <= j' < 4 ==> a[i', j'] == (if i' == j' then 1.0 else 0.0)
    {
      for j := 0 to 4
        invariant forall i', j' :: 0 <= i' < i && 0 <= j' < 4 ==> a[i', j'] == (if i' == j' then 1.0 else 0.0)
        invariant forall j' :: 0 <= j' < j ==> a[i, j'] == (if i == j' then 1.0 else 0.0)
      {
        a[i, j] := if i == j then 1.0 else 0.0;
      }
    }
    MatrixExt(Snapshot(a, 4), Identity(), 4);
  }

  /** new Matrix4f() and Matrix4f.identity(). */
  method NewIdentity() returns (m: Mat4)
    ensures forall i, j :: 0 <= i < 4 && 0 <= j < 4 ==> (m[i][j] == 1.0 <==> i == j)
    ensures forall i, j :: 0 <= i < 4 && 0 <= j < 4 && i != j ==> m[i][j] == 0.0
    ensures m == Identity()
  {
    var a := new real[4, 4];
    SetIdentity(a);
    m := Snapshot(a, 4);
  }

  /** new Matrix4f(float[][]): the outer length and the length of row 0 must
      be 4; rows 1..3 are not checked, so a shorter one makes arraycopy throw
      and a longer one is cut to its first four entries. */
  function FromRows(rows: seq<seq<real>>): (r: Result<Mat4, string>)
    ensures r.Ok? <==> |rows| == 4 && |rows[0]| == 4 && forall i :: 1 <= i < 4 ==> |rows[i]| >= 4
    ensures |rows| != 4 || (|rows| == 4 && |rows[0]| != 4) ==> r == Err("Matrix must be 4x4")
    ensures r.Ok? ==> forall i, j :: 0 <= i < 4 && 0 <= j < 4 ==> r.value[i][j] == rows[i][j]
  {
    if |rows| != 4 || |rows[0]| != 4 then Err("Matrix must be 4x4")
    else if exists i :: 1 <= i < 4 && |rows[i]| < 4 then Err("ArrayIndexOutOfBoundsException")
    else
      var m: Mat4 := seq(4, i requires 0 <= i < 4 => rows[i][..4]);
      Ok(m)
  }

  /** toArray copies the entries out; reading them back gives the same matrix. */
  lemma FromRowsOfMatrix(m: Mat4)
    ensures FromRows(m) == Ok(m)
  {
    assert forall i :: 0 <= i < 4 ==> m[i][..4] == m[i];
    assert seq(4, i requires 0 <= i < 4 => m[i][..4]) == m;
  }

  function ProductEntry(a: Mat4, b: Mat4, i: nat, j: nat): real
    requires i < 4 && j < 4
  {
    a[i][0] * b[0][j] + a[i][1] * b[1][j] + a[i][2] * b[2][j] + a[i][3] * b[3][j]
  }

  /** The row-by-column product A·B. */
  function Product(a: Mat4, b: Mat4): (c: Mat4)
    ensures forall i, j :: 0 <= i < 4 && 0 <= j < 4 ==> c[i][j] == ProductEntry(a, b, i, j)
  {
    seq(4, i requires 0 <= i < 4 => seq(4, j requires 0 <= j < 4 => ProductEntry(a, b, i, j)))
  }

  /** mul(Matrix4f): the triple loop of sum accumulators. */
  method Mul(a: Mat4, b: Mat4) returns (c: Mat4)
    ensures c == Product(a, b)
  {
    var result := new real[4, 4];
    for i := 0 to 4
      invariant forall i', j' :: 0 <= i' < i && 0 <= j' < 4 ==> result[i', j'] == ProductEntry(a, b, i', j')
    {
      for j := 0 to 4
        invariant forall i', j' :: 0 <= i' < i && 0 <= j' < 4 ==> result[i', j'] == ProductEntry(a, b, i', j')
        invariant forall j' :: 0 <= j' < j ==> result[i, j'] == ProductEntry(a, b, i, j')
      {
        var col := Column(b, 4, j);
        var sum := 0.0;
        for k := 0 to 4
          invariant sum == DotPrefix(a[i], col, k)
        {
          sum := sum + a[i][k] * b[k][j];
        }
        Dot4(a[i], col);
        result[i, j] := sum;
      }
    }
    c := Snapshot(result, 4);
    MatrixExt(c, Product(a, b), 4);
  }

  lemma IdentityNeutral(a: Mat4)
    ensures Product(Identity(), a) == a
    ensures Product(a, Identity()) == a
  {
    MatrixExt(Product(Identity(), a), a, 4);
    MatrixExt(Product(a, Identity()), a, 4);
  }

  lemma ProductAssociative(a: Mat4, b: Mat4, c: Mat4)
    ensures Product(Product(a, b), c) == Product(a, Product(b, c))
  {
    var l := Product(Product(a, b), c);
    var r := Product(a, Product(b, c));
    forall i, j | 0 <= i < 4 && 0 <= j < 4
      ensures l[i][j] == r[i][j]
    {
      ProductAssociativeAt(a, b, c, i, j);
    }
    MatrixExt(l, r, 4);
  }

  lemma ProductAssociativeAt(a: Mat4, b: Mat4, c: Mat4, i: nat, j: nat)
    requires i < 4 && j < 4
    ensures ProductEntry(Product(a, b), c, i, j) == ProductEntry(a, Product(b, c), i, j)
  {
    EntryAsDot(Product(a, b), c, i, j);
    EntryOfRightProduct(a, b, c, i, j);
    SumOfProducts(a, b, c, i, j);
  }

  /** Row i of A·B, entry by entry. */
  lemma RowOfProduct(a: Mat4, b: Mat4, i: nat)
    requires i < 4
    ensures Product(a, b)[i][0] == a[i][0] * b[0][0] + a[i][1] * b[1][0] + a[i][2] * b[2][0] + a[i][3] * b[3][0]
    ensures Product(a, b)[i][1] == a[i][0] * b[0][1] + a[i][1] * b[1][1] + a[i][2] * b[2][1] + a[i][3] * b[3][1]
    ensures Product(a, b)[i][2] == a[i][0] * b[0][2] + a[i][1] * b[1][2] + a[i][2] * b[2][2] + a[i][3] * b[3][2]
    ensures Product(a, b)[i][3] == a[i][0] * b[0][3] + a[i][1] * b[1][3] + a[i][2] * b[2][3] + a[i][3] * b[3][3]
  {
  }

  /** Column j of B·C, entry by entry. */
  lemma ColumnOfProduct(b: Mat4, c: Mat4, j: nat)
    requires j < 4
    ensures Column(Product(b, c), 4, j)[0] == b[0][0] * Column(c, 4, j)[0] + b[0][1] * Column(c, 4, j)[1] + b[0][2] * Column(c, 4, j)[2] + b[0][3] * Column(c, 4, j)[3]
    ensures Column(Product(b, c), 4, j)[1] == b[1][0] * Column(c, 4, j)[0] + b[1][1] * Column(c, 4, j)[1] + b[1][2] * Column(c, 4, j)[2] + b[1][3] * Column(c, 4, j)[3]
    ensures Column(Product(b, c), 4, j)[2] == b[2][0] * Column(c, 4, j)[0] + b[2][1] * Column(c, 4, j)[1] + b[2][2] * Column(c, 4, j)[2] + b[2][3] * Column(c, 4, j)[3]
    ensures Column(Product(b, c), 4, j)[3] == b[3][0] * Column(c, 4, j)[0] + b[3][1] * Column(c, 4, j)[1] + b[3][2] * Column(c, 4, j)[2] + b[3][3] * Column(c, 4, j)[3]
  {
  }

  lemma EntryOfRightProduct(a: Mat4, b: Mat4, c: Mat4, i: nat, j: nat)
    requires i < 4 && j < 4
    ensures ProductEntry(a, Product(b, c), i, j) == a[i][0] * Column(Product(b, c), 4, j)[0] + a[i][1] * Column(Product(b, c), 4, j)[1] + a[i][2] * Column(Product(b, c), 4, j)[2] + a[i][3] * Column(Product(b, c), 4, j)[3]
  {
    EntryAsDot(a, Product(b, c), i, j);
  }

  lemma EntryAsDot(m: Mat4, n: Mat4, i: nat, j: nat)
    requires i < 4 && j < 4
    ensures ProductEntry(m, n, i, j)
         == m[i][0] * Column(n, 4, j)[0] + m[i][1] * Column(n, 4, j)[1] + m[i][2] * Column(n, 4, j)[2] + m[i][3] * Column(n, 4, j)[3]
  {
  }

  /** (row i of A·B)·(column j of C) == (row i of A)·(column j of B·C), regrouped term by term. */
  lemma SumOfProducts(a: Mat4, b: Mat4, c: Mat4, i: nat, j: nat)
    requires i < 4 && j < 4
    ensures Product(a, b)[i][0] * Column(c, 4, j)[0] + Product(a, b)[i][1] * Column(c, 4, j)[1] + Product(a, b)[i][2] * Column(c, 4, j)[2] + Product(a, b)[i][3] * Column(c, 4, j)[3]
         == a[i][0] * Column(Product(b, c), 4, j)[0] + a[i][1] * Column(Product(b, c), 4, j)[1] + a[i][2] * Column(Product(b, c), 4, j)[2] + a[i][3] * Column(Product(b, c), 4, j)[3]
  {
    RowOfProduct(a, b, i);
    ColumnOfProduct(b, c, j);
    MulRight(Product(a, b)[i][0], a[i][0] * b[0][0] + a[i][1] * b[1][0] + a[i][2] * b[2][0] + a[i][3] * b[3][0], Column(c, 4, j)[0]);
    Distrib4(a[i][0] * b[0][0], a[i][1] * b[1][0], a[i][2] * b[2][0], a[i][3] * b[3][0], Column(c, 4, j)[0]);
    MulRight(Product(a, b)[i][1], a[i][0] * b[0][1] + a[i][1] * b[1][1] + a[i][2] * b[2][1] + a[i][3] * b[3][1], Column(c, 4, j)[1]);
    Distrib4(a[i][0] * b[0][1], a[i][1] * b[1][1], a[i][2] * b[2][1], a[i][3] * b[3][1], Column(c, 4, j)[1]);
    MulRight(Product(a, b)[i][2], a[i][0] * b[0][2] + a[i][1] * b[1][2] + a[i][2] * b[2][2] + a[i][3] * b[3][2], Column(c, 4, j)[2]);
    Distrib4(a[i][0] * b[0][2], a[i][1] * b[1][2], a[i][2] * b[2][2], a[i][3] * b[3][2], Column(c, 4, j)[2]);
    MulRight(Product(a, b)[i][3], a[i][0] * b[0][3] + a[i][1] * b[1][3] + a[i][2] * b[2][3] + a[i][3] * b[3][3], Column(c, 4, j)[3]);
    Distrib4(a[i][0] * b[0][3], a[i][1] * b[1][3], a[i][2] * b[2][3], a[i][3] * b[3][3], Column(c, 4, j)[3]);
    MulLeft(a[i][0], Column(Product(b, c), 4, j)[0], b[0][0] * Column(c, 4, j)[0] + b[0][1] * Column(c, 4, j)[1] + b[0][2] * Column(c, 4, j)[2] + b[0][3] * Column(c, 4, j)[3]);
    Distrib4Left(a[i][0], b[0][0] * Column(c, 4, j)[0], b[0][1] * Column(c, 4, j)[1], b[0][2] * Column(c, 4, j)[2], b[0][3] * Column(c, 4, j)[3]);
    MulLeft(a[i][1], Column(Product(b, c), 4, j)[1], b[1][0] * Column(c, 4, j)[0] + b[1][1] * Column(c, 4, j)[1] + b[1][2] * Column(c, 4, j)[2] + b[1][3] * Column(c, 4, j)[3]);
    Distrib4Left(a[i][1], b[1][0] * Column(c, 4, j)[0], b[1][1] * Column(c, 4, j)[1], b[1][2] * Column(c, 4, j)[2], b[1][3] * Column(c, 4, j)[3]);
    MulLeft(a[i][2], Column(Product(b, c), 4, j)[2], b[2][0] * Column(c, 4, j)[0] + b[2][1] * Column(c, 4, j)[1] + b[2][2] * Column(c, 4, j)[2] + b[2][3] * Column(c, 4, j)[3]);
    Distrib4Left(a[i][2], b[2][0] * Column(c, 4, j)[0], b[2][1] * Column(c, 4, j)[1], b[2][2] * Column(c, 4, j)[2], b[2][3] * Column(c, 4, j)[3]);
    MulLeft(a[i][3], Column(Product(b, c), 4, j)[3], b[3][0] * Column(c, 4, j)[0] + b[3][1] * Column(c, 4, j)[1] + b[3][2] * Column(c, 4, j)[2] + b[3][3] * Column(c, 4, j)[3]);
    Distrib4Left(a[i][3], b[3][0] * Column(c, 4, j)[0], b[3][1] * Column(c, 4, j)[1], b[3][2] * Column(c, 4, j)[2], b[3][3] * Column(c, 4, j)[3]);
    MulAssoc(a[i][0], b[0][0], Column(c, 4, j)[0]);
    MulAssoc(a[i][0], b[0][1], Column(c, 4, j)[1]);
    MulAssoc(a[i][0], b[0][2], Column(c, 4, j)[2]);
    MulAssoc(a[i][0], b[0][3], Column(c, 4, j)[3]);
    MulAssoc(a[i][1], b[1][0], Column(c, 4, j)[0]);
    MulAssoc(a[i][1], b[1][1], Column(c, 4, j)[1]);
    MulAssoc(a[i][1], b[1][2], Column(c, 4, j)[2]);
    MulAssoc(a[i][1], b[1][3], Column(c, 4, j)[3]);
    MulAssoc(a[i][2], b[2][0], Column(c, 4, j)[0]);
    MulAssoc(a[i][2], b[2][1], Column(c, 4, j)[1]);
    MulAssoc(a[i][2], b[2][2], Column(c, 4, j)[2]);
    MulAssoc(a[i][2], b[2][3], Column(c, 4, j)[3]);
    MulAssoc(a[i][3], b[3][0], Column(c, 4, j)[0]);
    MulAssoc(a[i][3], b[3][1], Column(c, 4, j)[1]);
    MulAssoc(a[i][3], b[3][2], Column(c, 4, j)[2]);
    MulAssoc(a[i][3], b[3][3], Column(c, 4, j)[3]);
  }

  lemma MulRight(u: real, v: real, y: real)
    requires u == v
    ensures u * y == v * y
  {
  }

  lemma MulLeft(x: real, u: real, v: real)
    requires u == v
    ensures x * u == x * v
  {
  }

  lemma MulAssoc(x: real, y: real, z: real)
    ensures (x * y) * z == x * (y * z)
  {
  }

  lemma Distrib4(a0: real, a1: real, a2: real, a3: real, y: real)
    ensures (a0 + a1 + a2 + a3) * y == a0 * y + a1 * y + a2 * y + a3 * y
  {
  }

  lemma Distrib4Left(x: real, a0: real, a1: real, a2: real, a3: real)
    ensures x * (a0 + a1 + a2 + a3) == x * a0 + x * a1 + x * a2 + x * a3
  {
  }

  /** mul(ColumnVector): M·v for a 4-component vector, with no division. */
  method MulColumn(m: Mat4, v: ColumnVector) returns (r: Result<ColumnVector, string>)
    ensures r.Ok? <==> v.Size() == 4
    ensures r.Err? ==> r.error == "Vector must have 4 components"
    ensures r.Ok? ==> r.value.data == MatVec4(m, v.data)
  {
    if v.Size() != 4 {
      return Err("Vector must have 4 components");
    }
    var result := new real[4];
    for i := 0 to 4
      invariant forall k :: 0 <= k < i ==> result[k] == MatVec4(m, v.data)[k]
    {
      var sum := 0.0;
      for j := 0 to 4
        invariant sum == DotPrefix(m[i], v.data, j)
      {
        sum := sum + m[i][j] * v.data[j];
      }
      Dot4(m[i], v.data);
      result[i] := sum;
    }
    assert result[..] == MatVec4(m, v.data);
    r := Ok(ColumnVector(result[..]));
  }

  /** What mul(Vector3f) returns: the first three components of M·(x, y, z, 1). */
  function Transform(m: Mat4, v: V3.Vector3f): (r: V3.Vector3f)
  {
    var p := MatVec4(m, FromVector3(v).data);
    V3.Vector3f(p[0], p[1], p[2])
  }

  /** mul(Vector3f): through a homogeneous column and toVector3f. */
  method MulVector(m: Mat4, v: V3.Vector3f) returns (r: V3.Vector3f)
    ensures r == Transform(m, v)
  {
    var column := MulColumn(m, FromVector3(v));
    var back := ToVector3f(column.value);
    r := back.value;
  }

  function Transpose(m: Mat4): (t: Mat4)
    ensures forall i, j :: 0 <= i < 4 && 0 <= j < 4 ==> t[i][j] == m[j][i]
  {
    seq(4, i requires 0 <= i < 4 => seq(4, j requires 0 <= j < 4 => m[j][i]))
  }

  lemma TransposeInvolution(m: Mat4)
    ensures Transpose(Transpose(m)) == m
  {
    MatrixExt(Transpose(Transpose(m)), m, 4);
  }

  method TransposeMethod(m: Mat4) returns (t: Mat4)
    ensures t == Transpose(m)
  {
    var result := new real[4, 4];
    for i := 0 to 4
      invariant forall i', j' :: 0 <= i' < i && 0 <= j' < 4 ==> result[i', j'] == m[j'][i']
    {
      for j := 0 to 4
        invariant forall i', j' :: 0 <= i' < i && 0 <= j' < 4 ==> result[i', j'] == m[j'][i']
        invariant forall j' :: 0 <= j' < j ==> result[i, j'] == m[j'][i]
      {
        result[i, j] := m[j][i];
      }
    }
    t := Snapshot(result, 4);
    MatrixExt(t, Transpose(m), 4);
  }

  function Plus(a: Mat4, b: Mat4): (c: Mat4)
    ensures forall i, j :: 0 <= i < 4 && 0 <= j < 4 ==> c[i][j] == a[i][j] + b[i][j]
  {
    seq(4, i requires 0 <= i < 4 => seq(4, j requires 0 <= j < 4 => a[i][j] + b[i][j]))
  }

  function Minus(a: Mat4, b: Mat4): (c: Mat4)
    ensures forall i, j :: 0 <= i < 4 && 0 <= j < 4 ==> c[i][j] == a[i][j] - b[i][j]
  {
    seq(4, i requires 0 <= i < 4 => seq(4, j requires 0 <= j < 4 => a[i][j] - b[i][j]))
  }

  function Scaled(a: Mat4, s: real): (c: Mat4)
    ensures forall i, j :: 0 <= i < 4 && 0 <= j < 4 ==> c[i][j] == a[i][j] * s
  {
    seq(4, i requires 0 <= i < 4 => seq(4, j requires 0 <= j < 4 => a[i][j] * s))
  }

  /** Adding B and then subtracting it gives back A. */
  lemma AddSubtractInverse(a: Mat4, b: Mat4)
    ensures Minus(Plus(a, b), b) == a
  {
    MatrixExt(Minus(Plus(a, b), b), a, 4);
  }

  method Add(a: Mat4, b: Mat4) returns (c: Mat4)
    ensures c == Plus(a, b)
  {
    var result := new real[4, 4];
    for i := 0 to 4
      invariant forall i', j' :: 0 <= i' < i && 0 <= j' < 4 ==> result[i', j'] == a[i'][j'] + b[i'][j']
    {
      for j := 0 to 4
        invariant forall i', j' :: 0 <= i' < i && 0 <= j' < 4 ==> result[i', j'] == a[i'][j'] + b[i'][j']
        invariant forall j' :: 0 <= j' < j ==> result[i, j'] == a[i][j'] + b[i][j']
      {
        result[i, j] := a[i][j] + b[i][j];
      }
    }
    c := Snapshot(result, 4);
    MatrixExt(c, Plus(a, b), 4);
  }

  method Subtract(a: Mat4, b: Mat4) returns (c: Mat4)
    ensures c == Minus(a, b)
  {
    var result := new real[4, 4];
    for i := 0 to 4
      invariant forall i', j' :: 0 <= i' < i && 0 <= j' < 4 ==> result[i', j'] == a[i'][j'] - b[i'][j']
    {
      for j := 0 to 4
        invariant forall i', j' :: 0 <= i' < i && 0 <= j' < 4 ==> result[i', j'] == a[i'][j'] - b[i'][j']
        invariant forall j' :: 0 <= j' < j ==> result[i, j'] == a[i][j'] - b[i][j']
      {
        result[i, j] := a[i][j] - b[i][j];
      }
    }
    c := Snapshot(result, 4);
    MatrixExt(c, Minus(a, b), 4);
  }

  method Multiply(a: Mat4, s: real) returns (c: Mat4)
    ensures c == Scaled(a, s)
  {
    var result := new real[4, 4];
    for i := 0 to 4
      invariant forall i', j' :: 0 <= i' < i && 0 <= j' < 4 ==> result[i', j'] == a[i'][j'] * s
    {
      for j := 0 to 4
        invariant forall i', j' :: 0 <= i' < i && 0 <= j' < 4 ==> result[i', j'] == a[i'][j'] * s
        invariant forall j' :: 0 <= j' < j ==> result[i, j'] == a[i][j'] * s
      {
        result[i, j] := a[i][j] * s;
      }
    }
    c := Snapshot(result, 4);
    MatrixExt(c, Scaled(a, s), 4);
  }

  // ------------------------------------------------------------ builders

  /** translation: the identity with the offsets set in column 3. */
  function Translation(tx: real, ty: real, tz: real): Mat4
  {
    [[1.0, 0.0, 0.0, tx], [0.0, 1.0, 0.0, ty], [0.0, 0.0, 1.0, tz], [0.0, 0.0, 0.0, 1.0]]
  }

  /** scaling: the identity with the factors set on the diagonal. */
  function Scaling(sx: real, sy: real, sz: real): Mat4
  {
    [[sx, 0.0, 0.0, 0.0], [0.0, sy, 0.0, 0.0], [0.0, 0.0, sz, 0.0], [0.0, 0.0, 0.0, 1.0]]
  }

  /** rotationX/Y/Z with the cosine and sine of the angle as parameters:
      the identity with the four entries of the rotated plane set. */
  function RotationXCS(cos: real, sin: real): Mat4
  {
    [[1.0, 0.0, 0.0, 0.0], [0.0, cos, -sin, 0.0], [0.0, sin, cos, 0.0], [0.0, 0.0, 0.0, 1.0]]
  }

  function RotationYCS(cos: real, sin: real): Mat4
  {
    [[cos, 0.0, sin, 0.0], [0.0, 1.0, 0.0, 0.0], [-sin, 0.0, cos, 0.0], [0.0, 0.0, 0.0, 1.0]]
  }

  function RotationZCS(cos: real, sin: real): Mat4
  {
    [[cos, -sin, 0.0, 0.0], [sin, cos, 0.0, 0.0], [0.0, 0.0, 1.0, 0.0], [0.0, 0.0, 0.0, 1.0]]
  }

  /** rotationX/Y/Z(angleDegrees): Math.toRadians, then cos and sin. */
  function RotationX(degrees: real): Mat4
  {
    RotationXCS(Cos(ToRadians(degrees)), Sin(ToRadians(degrees)))
  }

  function RotationY(degrees: real): Mat4
  {
    RotationYCS(Cos(ToRadians(degrees)), Sin(ToRadians(degrees)))
  }

  function RotationZ(degrees: real): Mat4
  {
    RotationZCS(Cos(ToRadians(degrees)), Sin(ToRadians(degrees)))
  }

  /** The builders start from new Matrix4f(), the identity. */
  lemma IdentityLiteral()
    ensures Identity() == [[1.0, 0.0, 0.0, 0.0], [0.0, 1.0, 0.0, 0.0], [0.0, 0.0, 1.0, 0.0], [0.0, 0.0, 0.0, 1.0]]
  {
    MatrixExt(Identity(), [[1.0, 0.0, 0.0, 0.0], [0.0, 1.0, 0.0, 0.0], [0.0, 0.0, 1.0, 0.0], [0.0, 0.0, 0.0, 1.0]], 4);
  }

  /** The last row of an affine matrix is (0, 0, 0, 1). */
  predicate IsAffine(m: Mat4)
  {
    m[3] == [0.0, 0.0, 0.0, 1.0]
  }

  lemma TranslationMovesPoints(tx: real, ty: real, tz: real, x: real, y: real, z: real)
    ensures MatVec4(Translation(tx, ty, tz), [x, y, z, 1.0]) == [x + tx, y + ty, z + tz, 1.0]
    ensures MatVec4(Translation(tx, ty, tz), [x, y, z, 0.0]) == [x, y, z, 0.0]
  {
    var p := MatVec4(Translation(tx, ty, tz), [x, y, z, 1.0]);
    assert p[0] == x + tx && p[1] == y + ty && p[2] == z + tz && p[3] == 1.0;
    var d := MatVec4(Translation(tx, ty, tz), [x, y, z, 0.0]);
    assert d[0] == x && d[1] == y && d[2] == z && d[3] == 0.0;
  }

  lemma ScalingScalesPoints(sx: real, sy: real, sz: real, x: real, y: real, z: real)
    ensures MatVec4(Scaling(sx, sy, sz), [x, y, z, 1.0]) == [sx * x, sy * y, sz * z, 1.0]
  {
    var r := MatVec4(Scaling(sx, sy, sz), [x, y, z, 1.0]);
    assert r[0] == sx * x && r[1] == sy * y && r[2] == sz * z && r[3] == 1.0;
  }

  /** A rotation about an axis keeps that coordinate and turns the other two. */
  lemma RotationXFixesX(c: real, s: real, x: real, y: real, z: real)
    ensures MatVec4(RotationXCS(c, s), [x, y, z, 1.0]) == [x, c * y - s * z, s * y + c * z, 1.0]
  {
    var rx := MatVec4(RotationXCS(c, s), [x, y, z, 1.0]);
    assert rx[0] == x && rx[1] == c * y - s * z && rx[2] == s * y + c * z && rx[3] == 1.0;
  }

  lemma RotationYFixesY(c: real, s: real, x: real, y: real, z: real)
    ensures MatVec4(RotationYCS(c, s), [x, y, z, 1.0]) == [c * x + s * z, y, c * z - s * x, 1.0]
  {
    var ry := MatVec4(RotationYCS(c, s), [x, y, z, 1.0]);
    assert ry[0] == c * x + s * z && ry[1] == y && ry[2] == c * z - s * x && ry[3] == 1.0;
  }

  lemma RotationZFixesZ(c: real, s: real, x: real, y: real, z: real)
    ensures MatVec4(RotationZCS(c, s), [x, y, z, 1.0]) == [c * x - s * y, s * x + c * y, z, 1.0]
  {
    var rz := MatVec4(RotationZCS(c, s), [x, y, z, 1.0]);
    assert rz[0] == c * x - s * y && rz[1] == s * x + c * y && rz[2] == z && rz[3] == 1.0;
  }

  lemma BuildersAreAffine(a: real, b: real, c: real)
    ensures IsAffine(Identity()) && IsAffine(Translation(a, b, c)) && IsAffine(Scaling(a, b, c))
    ensures IsAffine(RotationXCS(a, b)) && IsAffine(RotationYCS(a, b)) && IsAffine(RotationZCS(a, b))
  {
  }

  lemma AffineProduct(a: Mat4, b: Mat4)
    requires IsAffine(a) && IsAffine(b)
    ensures IsAffine(Product(a, b))
  {
    assert Product(a, b)[3] == [ProductEntry(a, b, 3, 0), ProductEntry(a, b, 3, 1), ProductEntry(a, b, 3, 2), ProductEntry(a, b, 3, 3)];
  }

  /** For an affine B, transforming by A·B is transforming by B, then by A. */
  lemma TransformProduct(a: Mat4, b: Mat4, v: V3.Vector3f)
    requires IsAffine(b)
    ensures Transform(Product(a, b), v) == Transform(a, Transform(b, v))
  {
    var p := [v.x, v.y, v.z, 1.0];
    var bp := MatVec4(b, p);
    assert bp[3] == 1.0;
    assert [bp[0], bp[1], bp[2], 1.0] == bp;
    var l := MatVec4(Product(a, b), p);
    var r := MatVec4(a, bp);
    forall i | 0 <= i < 3
      ensures l[i] == r[i]
    {
      assert l[i] == ProductEntry(a, b, i, 0) * v.x + ProductEntry(a, b, i, 1) * v.y
                   + ProductEntry(a, b, i, 2) * v.z + ProductEntry(a, b, i, 3) * 1.0;
    }
  }

  /** perspective: the identity with five entries set. The code takes
      Math.tan of fovDegrees * 0.5 with no conversion to radians, and keeps
      the 1 of the identity at (3, 3). */
  function Perspective(fovDegrees: real, aspectRatio: real, near: real, far: real): Mat4
  {
    var t := Div(1.0, Tan(fovDegrees * 0.5));
    [[Div(t, aspectRatio), 0.0, 0.0, 0.0],
     [0.0, t, 0.0, 0.0],
     [0.0, 0.0, Div(far + near, far - near), 1.0],
     [0.0, 0.0, Div(2.0 * (near * far), near - far), 1.0]]
  }

  /** The w of a perspective-projected point is 1 + z·2nf/(n-f), not z. */
  lemma PerspectiveRowThree(fov: real, aspect: real, near: real, far: real, x: real, y: real, z: real)
    ensures MatVec4(Perspective(fov, aspect, near, far), [x, y, z, 1.0])[3]
         == Div(2.0 * (near * far), near - far) * z + 1.0
    ensures MatVec4(Perspective(fov, aspect, near, far), [x, y, z, 1.0])[1]
         == Div(1.0, Tan(fov * 0.5)) * y
  {
  }

  /** orthographic: the identity with scale and offset set per axis. */
  function Orthographic(left: real, right: real, bottom: real, top: real, near: real, far: real): Mat4
  {
    [[Div(2.0, right - left), 0.0, 0.0, Div(-(right + left), right - left)],
     [0.0, Div(2.0, top - bottom), 0.0, Div(-(top + bottom), top - bottom)],
     [0.0, 0.0, Div(-2.0, far - near), Div(-(far + near), far - near)],
     [0.0, 0.0, 0.0, 1.0]]
  }

  /** The camera basis of lookAt: forward f, side s = up × f, true up u = f × s. */
  function Forward(eye: V3.Vector3f, target: V3.Vector3f): V3.Vector3f
  {
    V3.Normalize(V3.Subtract(target, eye))
  }

  function Side(eye: V3.Vector3f, target: V3.Vector3f, up: V3.Vector3f): V3.Vector3f
  {
    V3.Normalize(V3.Cross(up, Forward(eye, target)))
  }

  function TrueUp(eye: V3.Vector3f, target: V3.Vector3f, up: V3.Vector3f): V3.Vector3f
  {
    V3.Cross(Forward(eye, target), Side(eye, target, up))
  }

  /** lookAt: the identity with the basis set in rows 0..2 and the
      translation -(s·eye, u·eye, f·eye) set in row 3, a row-vector layout,
      while translation() uses column 3. */
  function LookAt(eye: V3.Vector3f, target: V3.Vector3f, up: V3.Vector3f): (m: Mat4)
  {
    LookAtFromBasis(eye, Side(eye, target, up), TrueUp(eye, target, up), Forward(eye, target))
  }

  function LookAtFromBasis(eye: V3.Vector3f, s: V3.Vector3f, u: V3.Vector3f, f: V3.Vector3f): Mat4
  {
    [[s.x, s.y, s.z, 0.0],
     [u.x, u.y, u.z, 0.0],
     [f.x, f.y, f.z, 0.0],
     [-V3.Dot(s, eye), -V3.Dot(u, eye), -V3.Dot(f, eye), 1.0]]
  }

  /** Read as a column-vector matrix, lookAt does not move the eye to the
      origin: its column 3 is (0, 0, 0, 1), unlike a translation's. */
  lemma LookAtTranslationInRowThree(eye: V3.Vector3f, s: V3.Vector3f, u: V3.Vector3f, f: V3.Vector3f)
    ensures var m := LookAtFromBasis(eye, s, u, f);
            && m[0][3] == 0.0 && m[1][3] == 0.0 && m[2][3] == 0.0
            && m[3] == [-V3.Dot(s, eye), -V3.Dot(u, eye), -V3.Dot(f, eye), 1.0]
            && Transform(m, eye) == V3.Vector3f(V3.Dot(s, eye), V3.Dot(u, eye), V3.Dot(f, eye))
  {
    TransformByBasis(LookAtFromBasis(eye, s, u, f), eye, s, u, f);
  }

  /** A matrix whose first three rows are (r, 0) maps v to the dot products r·v. */
  lemma TransformByBasis(m: Mat4, v: V3.Vector3f, r0: V3.Vector3f, r1: V3.Vector3f, r2: V3.Vector3f)
    requires m[0] == [r0.x, r0.y, r0.z, 0.0]
    requires m[1] == [r1.x, r1.y, r1.z, 0.0]
    requires m[2] == [r2.x, r2.y, r2.z, 0.0]
    ensures Transform(m, v) == V3.Vector3f(V3.Dot(r0, v), V3.Dot(r1, v), V3.Dot(r2, v))
  {
    TransformEntries(m, v);
  }

  /** Transform, component by component. */
  lemma TransformEntries(m: Mat4, v: V3.Vector3f)
    ensures Transform(m, v)
         == V3.Vector3f(m[0][0] * v.x + m[0][1] * v.y + m[0][2] * v.z + m[0][3] * 1.0,
                        m[1][0] * v.x + m[1][1] * v.y + m[1][2] * v.z + m[1][3] * 1.0,
                        m[2][0] * v.x + m[2][1] * v.y + m[2][2] * v.z + m[2][3] * 1.0)
  {
  }

  /** The identity moves no point. */
  lemma TransformIdentity(v: V3.Vector3f)
    ensures Transform(Identity(), v) == v
  {
    TransformEntries(Identity(), v);
    IdentityLiteral();
  }
}
