/** The immutable 2D vector com.cgvsu.math.Vector2f, used for texture coordinates. */
module Vector2 {
  import opened Wrappers
  import opened JavaMath

  /** The tolerance 1e-7f used by divide, normalize and equals. */
  const EPSILON: real := 0.0000001

  datatype Vector2f = Vector2f(x: real, y: real)

  const Zero: Vector2f := Vector2f(0.0, 0.0)

  function Add(a: Vector2f, b: Vector2f): (r: Vector2f)
    ensures Subtract(r, b) == a
  {
    Vector2f(a.x + b.x, a.y + b.y)
  }

  function Subtract(a: Vector2f, b: Vector2f): (r: Vector2f)
  {
    Vector2f(a.x - b.x, a.y - b.y)
  }

  function Multiply(v: Vector2f, s: real): (r: Vector2f)
    ensures s == 1.0 ==> r == v
    ensures s == 0.0 ==> r == Zero
  {
    Vector2f(v.x * s, v.y * s)
  }

  /** divide throws ArithmeticException("Division by zero") for |s| < 1e-7. */
  function Divide(v: Vector2f, s: real): (r: Result<Vector2f, string>)
    ensures r.Err? <==> Abs(s) < EPSILON
    ensures r.Err? ==> r.error == "Division by zero"
    ensures r.Ok? ==> Multiply(r.value, s) == v
  {
    if Abs(s) < EPSILON then Err("Division by zero")
    else Ok(Vector2f(v.x / s, v.y / s))
  }

  function Dot(a: Vector2f, b: Vector2f): real
  {
    a.x * b.x + a.y * b.y
  }

  function LengthSquared(v: Vector2f): (r: real)
    ensures 0.0 <= r
  {
    v.x * v.x + v.y * v.y
  }

  function Length(v: Vector2f): real
  {
    Sqrt(LengthSquared(v))
  }

  /** normalize: the zero vector below the tolerance, v / length otherwise. */
  function Normalize(v: Vector2f): (r: Vector2f)
    ensures Length(v) < EPSILON ==> r == Zero
    ensures Length(v) >= EPSILON ==> Multiply(r, Length(v)) == v
  {
    var len := Length(v);
    if len < EPSILON then Zero
    else
      match Divide(v, len)
      case Ok(u) => u
      case Err(_) => assert false; Zero
  }

  function DistanceTo(a: Vector2f, b: Vector2f): (r: real)
    ensures r == Length(Subtract(a, b))
  {
    var dx := a.x - b.x;
    var dy := a.y - b.y;
    assert dx * dx + dy * dy == LengthSquared(Subtract(a, b));
    Sqrt(dx * dx + dy * dy)
  }

  /** equals: component-wise closeness within the tolerance. */
  predicate ApproxEquals(a: Vector2f, b: Vector2f)
  {
    Abs(a.x - b.x) < EPSILON && Abs(a.y - b.y) < EPSILON
  }

  lemma DotSymmetric(a: Vector2f, b: Vector2f)
    ensures Dot(a, b) == Dot(b, a)
  {
  }

  lemma ApproxEqualsReflexive(a: Vector2f)
    ensures ApproxEquals(a, a)
  {
  }

  lemma ApproxEqualsSymmetric(a: Vector2f, b: Vector2f)
    ensures ApproxEquals(a, b) <==> ApproxEquals(b, a)
  {
  }
}
