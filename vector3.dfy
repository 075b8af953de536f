/** The immutable 3D vector of the math layer (ru.kirill Vector3f): every
    operation returns a new vector, components are floats modelled as reals. */
module Vector3 {
  import opened Wrappers
  import opened JavaMath

  /** The tolerance 1e-7f used by divide, normalize and equals. */
  const EPSILON: real := 0.0000001

  datatype Vector3f = Vector3f(x: real, y: real, z: real)

  const Zero: Vector3f := Vector3f(0.0, 0.0, 0.0)

  function Add(a: Vector3f, b: Vector3f): (r: Vector3f)
    ensures Subtract(r, b) == a
  {
    Vector3f(a.x + b.x, a.y + b.y, a.z + b.z)
  }

  function Subtract(a: Vector3f, b: Vector3f): (r: Vector3f)
  {
    Vector3f(a.x - b.x, a.y - b.y, a.z - b.z)
  }

  function Multiply(v: Vector3f, s: real): (r: Vector3f)
    ensures s == 1.0 ==> r == v
    ensures s == 0.0 ==> r == Zero
  {
    Vector3f(v.x * s, v.y * s, v.z * s)
  }

  /** divide throws ArithmeticException("Division by zero") for |s| < 1e-7. */
  function Divide(v: Vector3f, s: real): (r: Result<Vector3f, string>)
    ensures r.Err? <==> Abs(s) < EPSILON
    ensures r.Err? ==> r.error == "Division by zero"
  {
    if Abs(s) < EPSILON then Err("Division by zero")
    else Ok(Vector3f(v.x / s, v.y / s, v.z / s))
  }

  /** A successful division times the divisor gives back the vector. */
  lemma DivideInverse(v: Vector3f, s: real)
    ensures Divide(v, s).Ok? ==> Multiply(Divide(v, s).value, s) == v
  {
  }

  function Dot(a: Vector3f, b: Vector3f): real
  {
    a.x * b.x + a.y * b.y + a.z * b.z
  }

  function Cross(a: Vector3f, b: Vector3f): Vector3f
  {
    Vector3f(a.y * b.z - a.z * b.y, a.z * b.x - a.x * b.z, a.x * b.y - a.y * b.x)
  }

  /** The cross product is orthogonal to both factors. */
  lemma CrossOrthogonal(a: Vector3f, b: Vector3f)
    ensures Dot(a, Cross(a, b)) == 0.0 && Dot(b, Cross(a, b)) == 0.0
  {
  }

  function LengthSquared(v: Vector3f): (r: real)
    ensures 0.0 <= r
  {
    v.x * v.x + v.y * v.y + v.z * v.z
  }

  function Length(v: Vector3f): real
  {
    Sqrt(LengthSquared(v))
  }

  /** normalize: the zero vector below the tolerance, v / length otherwise. */
  function Normalize(v: Vector3f): (r: Vector3f)
  {
    var len := Length(v);
    if len < EPSILON then Zero
    else
      match Divide(v, len)
      case Ok(u) => u
      case Err(_) => assert false; Zero
  }

  /** Below the tolerance the result is the zero vector; otherwise it
      times the length gives back v. */
  lemma NormalizeProperties(v: Vector3f)
    ensures Length(v) < EPSILON ==> Normalize(v) == Zero
    ensures Length(v) >= EPSILON ==> Multiply(Normalize(v), Length(v)) == v
  {
    DivideInverse(v, Length(v));
  }

  function DistanceTo(a: Vector3f, b: Vector3f): (r: real)
    ensures r == Length(Subtract(a, b))
  {
    var dx := a.x - b.x;
    var dy := a.y - b.y;
    var dz := a.z - b.z;
    assert dx * dx + dy * dy + dz * dz == LengthSquared(Subtract(a, b));
    Sqrt(dx * dx + dy * dy + dz * dz)
  }

  /** equals: component-wise closeness within the tolerance. */
  predicate ApproxEquals(a: Vector3f, b: Vector3f)
  {
    Abs(a.x - b.x) < EPSILON && Abs(a.y - b.y) < EPSILON && Abs(a.z - b.z) < EPSILON
  }

  lemma DotSymmetric(a: Vector3f, b: Vector3f)
    ensures Dot(a, b) == Dot(b, a)
  {
  }

  lemma CrossAntiCommutative(a: Vector3f, b: Vector3f)
    ensures Cross(a, b) == Multiply(Cross(b, a), -1.0)
  {
  }

  lemma DistanceToSelf(a: Vector3f)
    requires SqrtFacts()
    ensures DistanceTo(a, a) == 0.0
  {
  }

  lemma ApproxEqualsReflexive(a: Vector3f)
    ensures ApproxEquals(a, a)
  {
  }

  lemma ApproxEqualsSymmetric(a: Vector3f, b: Vector3f)
    ensures ApproxEquals(a, b) <==> ApproxEquals(b, a)
  {
  }

  /** Three vectors, each within the tolerance of the next, whose ends are not. */
  lemma ApproxEqualsNotTransitive()
    ensures var a, b, c := Zero, Vector3f(EPSILON * 0.75, 0.0, 0.0), Vector3f(EPSILON * 1.5, 0.0, 0.0);
            ApproxEquals(a, b) && ApproxEquals(b, c) && !ApproxEquals(a, c)
  {
  }
}
