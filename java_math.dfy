/** The parts of java.lang.Math and of IEEE float arithmetic the core relies on.
    `float` is modelled by `real`; the transcendental functions, the float
    parser and the `%.6f` formatter are uninterpreted. Facts about them are
    never assumed: lemmas that need one take it as a hypothesis. */
module JavaMath {
  import opened Wrappers

  /** Math.sqrt, Math.sin, Math.cos, Math.tan, Math.atan2 and Math.PI. */
  const Sqrt: real -> real
  const Sin: real -> real
  const Cos: real -> real
  const Tan: real -> real
  const Atan2: (real, real) -> real
  const PI: real

  /** The IEEE value of `a / 0.0f` (an infinity or NaN), which `real` cannot hold. */
  const DivByZero: real -> real

  /** Float.parseFloat: Some(value) or None for a NumberFormatException. */
  const ParseFloat: string -> Option<real>

  /** String.format(Locale.ROOT, "%.6f", x) for a finite float. */
  const FormatFixed6: real -> string

  /** The properties of Math.sqrt the lemmas use, as a hypothesis: it maps 0 to
      0 and 1 to 1, and gives a non-negative square root of a non-negative argument. */
  ghost predicate SqrtFacts()
  {
    && Sqrt(0.0) == 0.0
    && Sqrt(1.0) == 1.0
    && forall x: real :: 0.0 <= x ==> 0.0 <= Sqrt(x) && Sqrt(x) * Sqrt(x) == x
  }

  /** Float division: exact over reals, uninterpreted on a zero divisor. */
  function Div(a: real, b: real): (r: real)
    ensures b != 0.0 ==> r * b == a
  {
    if b != 0.0 then a / b else DivByZero(a)
  }

  function Abs(x: real): (r: real)
    ensures 0.0 <= r
    ensures r == x || r == -x
  {
    if x < 0.0 then -x else x
  }

  function Min(a: real, b: real): (r: real)
    ensures r <= a && r <= b
    ensures r == a || r == b
  {
    if a <= b then a else b
  }

  function Max(a: real, b: real): (r: real)
    ensures a <= r && b <= r
    ensures r == a || r == b
  {
    if a >= b then a else b
  }

  /** Math.toRadians and Math.toDegrees. */
  function ToRadians(degrees: real): real
  {
    degrees * (PI / 180.0)
  }

  function ToDegrees(radians: real): real
  {
    radians * Div(180.0, PI)
  }

  /** A Java float that may be NaN or infinite, as the validator and the
      number formatter see it. */
  datatype JFloat = Finite(value: real) | NaN | PosInf | NegInf
  {
    predicate IsNaN() { this.NaN? }
    predicate IsInfinite() { PosInf? || NegInf? }
  }
}
