/** The float helpers of the math layer (MathUtils). */
module MathUtils {
  import opened Wrappers
  import JavaMath

  /** EPSILON = 1e-7f, the tolerance of floatEquals. */
  const EPSILON: real := 0.0000001

  /** toRadians: degrees·PI/180, with PI the float value of Math.PI. */
  function ToRadians(degrees: real): (r: real)
    ensures degrees == 0.0 ==> r == 0.0
    ensures r * 180.0 == degrees * JavaMath.PI
  {
    degrees * JavaMath.PI / 180.0
  }

  /** toDegrees: radians·180/PI. */
  function ToDegrees(radians: real): (r: real)
    ensures JavaMath.PI != 0.0 ==> r * JavaMath.PI == radians * 180.0
  {
    JavaMath.Div(radians * 180.0, JavaMath.PI)
  }

  /** The two conversions are inverse over reals, given a non-zero PI. */
  lemma DegreesRadiansRoundTrip(d: real)
    requires JavaMath.PI != 0.0
    ensures ToDegrees(ToRadians(d)) == d
    ensures ToRadians(ToDegrees(d)) == d
  {
    var p := JavaMath.PI;
    var r := ToRadians(d);
    assert ToDegrees(r) * p == r * 180.0 == d * p;
    var g := ToDegrees(d);
    assert g * p == d * 180.0;
    assert ToRadians(g) * 180.0 == g * p;
  }

  /** clamp: Math.max(min, Math.min(max, value)). */
  function Clamp(value: real, min: real, max: real): (r: real)
    ensures min <= max ==> min <= r <= max
    ensures min <= value <= max ==> r == value
    ensures value < min ==> r == min
    ensures min <= max < value ==> r == max
  {
    JavaMath.Max(min, JavaMath.Min(max, value))
  }

  /** lerp: a + (b − a)·t. */
  function Lerp(a: real, b: real, t: real): (r: real)
    ensures t == 0.0 ==> r == a
    ensures t == 1.0 ==> r == b
    ensures a == b ==> r == a
  {
    a + (b - a) * t
  }

  /** floatEquals: |a − b| < 1e-7. */
  predicate FloatEquals(a: real, b: real)
  {
    JavaMath.Abs(a - b) < EPSILON
  }

  lemma FloatEqualsReflexiveSymmetric(a: real, b: real)
    ensures FloatEquals(a, a)
    ensures FloatEquals(a, b) <==> FloatEquals(b, a)
  {
    assert JavaMath.Abs(a - b) == JavaMath.Abs(b - a);
  }

  /** floatEquals is not transitive. */
  lemma FloatEqualsNotTransitive()
    ensures FloatEquals(0.0, 0.00000006) && FloatEquals(0.00000006, 0.00000012)
    ensures !FloatEquals(0.0, 0.00000012)
  {
  }

  /** lerpVector: the element-wise lerp of two arrays of equal length. */
  method LerpVector(a: seq<real>, b: seq<real>, t: real) returns (r: Result<seq<real>, string>)
    ensures r.Err? <==> |a| != |b|
    ensures r.Err? ==> r.error == "Vectors must have same length"
    ensures r.Ok? ==> |r.value| == |a| && forall i :: 0 <= i < |a| ==> r.value[i] == Lerp(a[i], b[i], t)
  {
    if |a| != |b| {
      return Err("Vectors must have same length");
    }
    var result := new real[|a|];
    for i := 0 to |a|
      invariant forall k :: 0 <= k < i ==> result[k] == Lerp(a[k], b[k], t)
    {
      result[i] := Lerp(a[i], b[i], t);
    }
    r := Ok(result[..]);
  }
}
