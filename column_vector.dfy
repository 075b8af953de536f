/** The homogeneous column vector of the math layer (ColumnVector): an
    immutable array of floats whose operations fill a fresh result array. */
module ColumnVectors {
  import opened Wrappers
  import opened Linear
  import V3 = Vector3
  import V2 = Vector2

  datatype ColumnVector = ColumnVector(data: seq<real>)
  {
    function Size(): nat
    {
      |data|
    }
  }

  const SIZE_MISMATCH := "Vectors must have same size"

  /** new ColumnVector(size): a zero vector of the given size. */
  function OfSize(n: nat): (c: ColumnVector)
    ensures c.Size() == n
    ensures forall i :: 0 <= i < n ==> c.data[i] == 0.0
  {
    ColumnVector(seq(n, i => 0.0))
  }

  /** new ColumnVector(float... values) keeps a clone of the values; a later
      change to the caller's array is not visible through a value. */
  function Of(values: seq<real>): (c: ColumnVector)
    ensures c.data == values
  {
    ColumnVector(values)
  }

  /** new ColumnVector(Vector3f): homogeneous coordinates with w = 1. */
  function FromVector3(v: V3.Vector3f): ColumnVector
  {
    ColumnVector([v.x, v.y, v.z, 1.0])
  }

  /** new ColumnVector(Vector2f): homogeneous 2D coordinates with a last component 1. */
  function FromVector2(v: V2.Vector2f): ColumnVector
  {
    ColumnVector([v.x, v.y, 1.0])
  }

  /** forNormal: a direction, w = 0, so translations do not move it. */
  function ForNormal(n: V3.Vector3f): ColumnVector
  {
    ColumnVector([n.x, n.y, n.z, 0.0])
  }

  /** toVector3f: the first three components; fewer than three is an IllegalStateException. */
  function ToVector3f(c: ColumnVector): (r: Result<V3.Vector3f, string>)
    ensures r.Ok? <==> c.Size() >= 3
    ensures r.Ok? ==> r.value == V3.Vector3f(c.data[0], c.data[1], c.data[2])
  {
    if c.Size() < 3 then Err("Vector must have at least 3 components")
    else Ok(V3.Vector3f(c.data[0], c.data[1], c.data[2]))
  }

  /** toVector2f: the first two components; fewer than two is an IllegalStateException. */
  function ToVector2f(c: ColumnVector): (r: Result<V2.Vector2f, string>)
    ensures r.Ok? <==> c.Size() >= 2
    ensures r.Ok? ==> r.value == V2.Vector2f(c.data[0], c.data[1])
  {
    if c.Size() < 2 then Err("Vector must have at least 2 components")
    else Ok(V2.Vector2f(c.data[0], c.data[1]))
  }

  lemma Vector3RoundTrip(v: V3.Vector3f)
    ensures FromVector3(v).Size() == 4 && FromVector3(v).data[3] == 1.0
    ensures ToVector3f(FromVector3(v)) == Ok(v)
    ensures ToVector3f(ForNormal(v)) == Ok(v) && ForNormal(v).data[3] == 0.0
  {
  }

  lemma Vector2RoundTrip(v: V2.Vector2f)
    ensures FromVector2(v).Size() == 3 && FromVector2(v).data[2] == 1.0
    ensures ToVector2f(FromVector2(v)) == Ok(v)
  {
  }

  /** The perspective division of multiply(Matrix4f): when w is neither 0
      nor 1, x, y and z are divided by w and w becomes 1; otherwise the
      product is returned as is. */
  function PerspectiveDivide(p: seq<real>): (r: seq<real>)
    requires |p| == 4
    ensures |r| == 4
  {
    if p[3] != 0.0 && p[3] != 1.0 then [p[0] / p[3], p[1] / p[3], p[2] / p[3], 1.0] else p
  }

  /** The divided vector denotes the same homogeneous point, and dividing
      again changes nothing. */
  lemma PerspectiveDivideProperties(p: seq<real>)
    requires |p| == 4
    ensures var r := PerspectiveDivide(p);
            && (r[3] == 0.0 || r[3] == 1.0)
            && (p[3] != 0.0 ==> forall i :: 0 <= i < 3 ==> r[i] * p[3] == p[i] * r[3])
            && PerspectiveDivide(r) == r
  {
  }

  /** What multiply(Matrix4f) computes. */
  function Multiply4Spec(c: ColumnVector, m: Mat4): (r: Result<ColumnVector, string>)
    ensures r.Ok? <==> c.Size() == 4
    ensures r.Ok? ==> r.value.Size() == 4
  {
    if c.Size() != 4 then Err("Vector must have size 4 for 4x4 matrix multiplication")
    else Ok(ColumnVector(PerspectiveDivide(MatVec4(m, c.data))))
  }

  /** multiply(Matrix4f): M·v accumulated row by row into a fresh array,
      then divided in place by w. */
  method Multiply4(c: ColumnVector, m: Mat4) returns (r: Result<ColumnVector, string>)
    ensures r == Multiply4Spec(c, m)
  {
    if c.Size() != 4 {
      return Err("Vector must have size 4 for 4x4 matrix multiplication");
    }
    var raw := MatVec4(m, c.data);
    var result := new real[4];
    for i := 0 to 4
      invariant forall k :: 0 <= k < i ==> result[k] == raw[k]
    {
      var sum := 0.0;
      for j := 0 to 4
        invariant sum == DotPrefix(m[i], c.data, j)
      {
        sum := sum + m[i][j] * c.data[j];
      }
      Dot4(m[i], c.data);
      result[i] := sum;
    }
    if result[3] != 0.0 && result[3] != 1.0 {
      for i := 0 to 3
        invariant result[3] == raw[3]
        invariant forall k :: 0 <= k < i ==> result[k] == raw[k] / raw[3]
        invariant forall k :: i <= k < 3 ==> result[k] == raw[k]
      {
        result[i] := result[i] / result[3];
      }
      result[3] := 1.0;
    }
    assert result[..] == PerspectiveDivide(raw);
    r := Ok(ColumnVector(result[..]));
  }

  /** What multiply(Matrix3f) computes: M·v, with no division. */
  function Multiply3Spec(c: ColumnVector, m: Mat3): (r: Result<ColumnVector, string>)
    ensures r.Ok? <==> c.Size() == 3
    ensures r.Ok? ==> r.value.Size() == 3
  {
    if c.Size() != 3 then Err("Vector must have size 3 for 3x3 matrix multiplication")
    else Ok(ColumnVector(MatVec3(m, c.data)))
  }

  method Multiply3(c: ColumnVector, m: Mat3) returns (r: Result<ColumnVector, string>)
    ensures r == Multiply3Spec(c, m)
  {
    if c.Size() != 3 {
      return Err("Vector must have size 3 for 3x3 matrix multiplication");
    }
    var result := new real[3];
    for i := 0 to 3
      invariant forall k :: 0 <= k < i ==> result[k] == MatVec3(m, c.data)[k]
    {
      var sum := 0.0;
      for j := 0 to 3
        invariant sum == DotPrefix(m[i], c.data, j)
      {
        sum := sum + m[i][j] * c.data[j];
      }
      Dot3(m[i], c.data);
      result[i] := sum;
    }
    assert result[..] == MatVec3(m, c.data);
    r := Ok(ColumnVector(result[..]));
  }

  /** dot: the sum of component products; different sizes throw. */
  method Dot(a: ColumnVector, b: ColumnVector) returns (r: Result<real, string>)
    ensures r.Ok? <==> a.Size() == b.Size()
    ensures r.Ok? ==> r.value == DotPrefix(a.data, b.data, a.Size())
    ensures r.Err? ==> r.error == SIZE_MISMATCH
  {
    if a.Size() != b.Size() {
      return Err(SIZE_MISMATCH);
    }
    var sum := 0.0;
    for i := 0 to a.Size()
      invariant sum == DotPrefix(a.data, b.data, i)
    {
      sum := sum + a.data[i] * b.data[i];
    }
    r := Ok(sum);
  }

  /** The element-wise sum and difference that add and subtract compute. */
  function Sum(a: ColumnVector, b: ColumnVector): (c: ColumnVector)
    requires a.Size() == b.Size()
    ensures c.Size() == a.Size()
    ensures forall i :: 0 <= i < c.Size() ==> c.data[i] == a.data[i] + b.data[i]
  {
    ColumnVector(seq(a.Size(), i requires 0 <= i < a.Size() => a.data[i] + b.data[i]))
  }

  function Difference(a: ColumnVector, b: ColumnVector): (c: ColumnVector)
    requires a.Size() == b.Size()
    ensures c.Size() == a.Size()
    ensures forall i :: 0 <= i < c.Size() ==> c.data[i] == a.data[i] - b.data[i]
  {
    ColumnVector(seq(a.Size(), i requires 0 <= i < a.Size() => a.data[i] - b.data[i]))
  }

  /** Adding b and then subtracting it gives back a. */
  lemma AddSubtractInverse(a: ColumnVector, b: ColumnVector)
    requires a.Size() == b.Size()
    ensures Difference(Sum(a, b), b) == a
  {
    assert Difference(Sum(a, b), b).data == a.data;
  }

  method Add(a: ColumnVector, b: ColumnVector) returns (r: Result<ColumnVector, string>)
    ensures r.Ok? <==> a.Size() == b.Size()
    ensures r.Ok? ==> r.value == Sum(a, b)
    ensures r.Err? ==> r.error == SIZE_MISMATCH
  {
    if a.Size() != b.Size() {
      return Err(SIZE_MISMATCH);
    }
    var result := new real[a.Size()];
    for i := 0 to a.Size()
      invariant forall k :: 0 <= k < i ==> result[k] == a.data[k] + b.data[k]
    {
      result[i] := a.data[i] + b.data[i];
    }
    assert result[..] == Sum(a, b).data;
    r := Ok(ColumnVector(result[..]));
  }

  method Subtract(a: ColumnVector, b: ColumnVector) returns (r: Result<ColumnVector, string>)
    ensures r.Ok? <==> a.Size() == b.Size()
    ensures r.Ok? ==> r.value == Difference(a, b)
    ensures r.Err? ==> r.error == SIZE_MISMATCH
  {
    if a.Size() != b.Size() {
      return Err(SIZE_MISMATCH);
    }
    var result := new real[a.Size()];
    for i := 0 to a.Size()
      invariant forall k :: 0 <= k < i ==> result[k] == a.data[k] - b.data[k]
    {
      result[i] := a.data[i] - b.data[i];
    }
    assert result[..] == Difference(a, b).data;
    r := Ok(ColumnVector(result[..]));
  }

  /** multiply(float): every component scaled, size preserved. */
  method Scale(a: ColumnVector, s: real) returns (r: ColumnVector)
    ensures r.Size() == a.Size()
    ensures forall i :: 0 <= i < r.Size() ==> r.data[i] == a.data[i] * s
  {
    var result := new real[a.Size()];
    for i := 0 to a.Size()
      invariant forall k :: 0 <= k < i ==> result[k] == a.data[k] * s
    {
      result[i] := a.data[i] * s;
    }
    r := ColumnVector(result[..]);
  }
}
