/** The integer rasteriser (TriangleRasterization): Bresenham lines, the
    outline of a triangle, and the vertex sort and row loop of the scanline
    fill. The pixel writer is the output: every method returns the pixels
    it would set, in the order it sets them. */
module Rasterization {
  datatype Pixel = Pixel(x: int, y: int)

  /** A vertex colour of the interpolated fill, carried along by the sort. */
  datatype Color = Color(red: real, green: real, blue: real, opacity: real)

  /** (int) Math.signum(v). */
  function Sign(v: int): (s: int)
    ensures -1 <= s <= 1 && (v > 0 <==> s == 1) && (v < 0 <==> s == -1)
  {
    if v > 0 then 1 else if v < 0 then -1 else 0
  }

  function Abs(v: int): (r: nat)
  {
    if v < 0 then -v else v
  }

  /** The number of steps of drawLine: max(|dx|, |dy|), the length of the
      major axis. */
  function LineLength(x1: int, y1: int, x2: int, y2: int): nat
  {
    if Abs(x2 - x1) > Abs(y2 - y1) then Abs(x2 - x1) else Abs(y2 - y1)
  }

  /** The length of the minor axis: |dy| when x is the major axis, |dx|
      otherwise (also when the two are equal). */
  function MinorLength(x1: int, y1: int, x2: int, y2: int): nat
  {
    if Abs(x2 - x1) > Abs(y2 - y1) then Abs(y2 - y1) else Abs(x2 - x1)
  }

  /** Bresenham's error term after t steps: el/2 at the start; each step
      subtracts es and adds el back when the term went negative. */
  function ErrorAt(t: nat, es: nat, el: nat): int
  {
    if t == 0 then el / 2
    else
      var e := ErrorAt(t - 1, es, el) - es;
      if e < 0 then e + el else e
  }

  /** Whether step t (from pixel t to pixel t + 1) also moves along the
      minor axis. */
  predicate Wraps(t: nat, es: nat, el: nat)
  {
    ErrorAt(t, es, el) - es < 0
  }

  /** The number of minor-axis moves among the first t steps. */
  function WrapCount(t: nat, es: nat, el: nat): nat
  {
    if t == 0 then 0 else WrapCount(t - 1, es, el) + (if Wraps(t - 1, es, el) then 1 else 0)
  }

  /** The pixel drawLine sets after t steps: each step moves the major axis
      by the sign of its delta, and the minor axis too when the error
      term wraps. */
  function Walk(x1: int, y1: int, x2: int, y2: int, t: nat): Pixel
  {
    if t == 0 then Pixel(x1, y1)
    else
      var p := Walk(x1, y1, x2, y2, t - 1);
      var xMajor := Abs(x2 - x1) > Abs(y2 - y1);
      var moved := Wraps(t - 1, MinorLength(x1, y1, x2, y2), LineLength(x1, y1, x2, y2));
      Pixel(p.x + (if xMajor || moved then Sign(x2 - x1) else 0),
            p.y + (if !xMajor || moved then Sign(y2 - y1) else 0))
  }

  /** Every pixel drawLine sets, in the order it sets them. */
  function Line(x1: int, y1: int, x2: int, y2: int): (r: seq<Pixel>)
    ensures |r| == LineLength(x1, y1, x2, y2) + 1
    ensures forall t :: 0 <= t < |r| ==> r[t] == Walk(x1, y1, x2, y2, t)
  {
    seq(LineLength(x1, y1, x2, y2) + 1, t requires 0 <= t => Walk(x1, y1, x2, y2, t))
  }

  /** drawLine(x1, y1, x2, y2): Bresenham's loop, which sets
      max(|dx|, |dy|) + 1 pixels. */
  method DrawLine(x1: int, y1: int, x2: int, y2: int) returns (pixels: seq<Pixel>)
    ensures pixels == Line(x1, y1, x2, y2)
  {
    var dx := x2 - x1;
    var dy := y2 - y1;
    var incx := Sign(dx);
    var incy := Sign(dy);
    dx := Abs(dx);
    dy := Abs(dy);
    var pdx, pdy, es, el;
    if dx > dy {
      pdx, pdy, es, el := incx, 0, dy, dx;
    } else {
      pdx, pdy, es, el := 0, incy, dx, dy;
    }
    var x, y := x1, y1;
    var err := el / 2;
    pixels := [Pixel(x, y)];
    assert es == MinorLength(x1, y1, x2, y2) && el == LineLength(x1, y1, x2, y2);
    var t := 0;
    while t < el
      invariant 0 <= t <= el
      invariant err == ErrorAt(t, es, el)
      invariant Pixel(x, y) == Walk(x1, y1, x2, y2, t)
      invariant pixels == WalkPrefix(x1, y1, x2, y2, t)
    {
      StepAgrees(x1, y1, x2, y2, t, x, y, err, pdx, pdy);
      err := err - es;
      if err < 0 {
        err := err + el;
        x := x + incx;
        y := y + incy;
      } else {
        x := x + pdx;
        y := y + pdy;
      }
      t := t + 1;
      pixels := pixels + [Pixel(x, y)];
    }
    WalkPrefixIsLine(x1, y1, x2, y2, t);
  }

  /** One pass of drawLine's loop body, taken from pixel t with error term
      err, lands on the next pixel of the walk with the next error term. */
  lemma StepAgrees(x1: int, y1: int, x2: int, y2: int, t: nat, x: int, y: int, err: int, pdx: int, pdy: int)
    requires Pixel(x, y) == Walk(x1, y1, x2, y2, t)
    requires err == ErrorAt(t, MinorLength(x1, y1, x2, y2), LineLength(x1, y1, x2, y2))
    requires pdx == (if Abs(x2 - x1) > Abs(y2 - y1) then Sign(x2 - x1) else 0)
    requires pdy == (if Abs(x2 - x1) > Abs(y2 - y1) then 0 else Sign(y2 - y1))
    ensures var es, el := MinorLength(x1, y1, x2, y2), LineLength(x1, y1, x2, y2);
            ErrorAt(t + 1, es, el) == (if err - es < 0 then err - es + el else err - es)
            && Walk(x1, y1, x2, y2, t + 1)
               == (if err - es < 0 then Pixel(x + Sign(x2 - x1), y + Sign(y2 - y1)) else Pixel(x + pdx, y + pdy))
  {
  }

  function WalkPrefix(x1: int, y1: int, x2: int, y2: int, t: nat): seq<Pixel>
  {
    if t == 0 then [Pixel(x1, y1)] else WalkPrefix(x1, y1, x2, y2, t - 1) + [Walk(x1, y1, x2, y2, t)]
  }

  lemma {:induction false} WalkPrefixIsLine(x1: int, y1: int, x2: int, y2: int, t: nat)
    ensures |WalkPrefix(x1, y1, x2, y2, t)| == t + 1
    ensures forall i :: 0 <= i <= t ==> WalkPrefix(x1, y1, x2, y2, t)[i] == Walk(x1, y1, x2, y2, i)
  {
    if t > 0 {
      WalkPrefixIsLine(x1, y1, x2, y2, t - 1);
    }
  }

  // The closed form of the walk.

  /** The error term stays in [0, el). */
  lemma {:induction false} ErrorBounds(t: nat, es: nat, el: nat)
    requires 0 < el && es <= el
    ensures 0 <= ErrorAt(t, es, el) < el
  {
    if t > 0 {
      ErrorBounds(t - 1, es, el);
    }
  }

  /** The error term is el/2 - t·es + k·el, where k is the number of wraps
      so far. */
  lemma {:induction false} ErrorInvariant(t: nat, es: nat, el: nat)
    ensures ErrorAt(t, es, el) == el / 2 - t * es + WrapCount(t, es, el) * el
  {
    if t > 0 {
      ErrorInvariant(t - 1, es, el);
      var k := WrapCount(t - 1, es, el);
      MulStep(t - 1, es);
      MulStep(k, el);
    }
  }

  lemma MulStep(a: int, b: int)
    ensures (a + 1) * b == a * b + b
  {
  }

  /** The number of minor-axis moves after t steps in closed form: the
      unique k with 0 <= el/2 - t·es + k·el < el. */
  function MinorSteps(t: nat, es: nat, el: nat): nat
  {
    if el == 0 then 0 else (t * es + el - 1 - el / 2) / el
  }

  /** The t-th pixel of drawLine(x1, y1, x2, y2) in closed form: t steps
      along the major axis and MinorSteps along the other. */
  function LinePixel(x1: int, y1: int, x2: int, y2: int, t: nat): Pixel
  {
    var dx, dy := Abs(x2 - x1), Abs(y2 - y1);
    var incx, incy := Sign(x2 - x1), Sign(y2 - y1);
    if dx > dy then Pixel(x1 + incx * t, y1 + incy * MinorSteps(t, dy, dx))
    else Pixel(x1 + incx * MinorSteps(t, dx, dy), y1 + incy * t)
  }

  /** Integer division by a positive divisor is determined by the bounds
      on the quotient. */
  lemma DivUnique(n: int, d: int, q: int)
    requires d > 0 && q * d <= n < q * d + d
    ensures n / d == q
  {
    var r := n / d;
    assert r * d <= n < r * d + d;
    if r < q {
      assert (q - r) * d >= d by { MulAtLeast(q - r, d); }
    } else if r > q {
      assert (r - q) * d >= d by { MulAtLeast(r - q, d); }
    }
  }

  lemma MulAtLeast(m: int, d: int)
    requires m >= 1 && d > 0
    ensures m * d >= d
  {
  }

  /** The error term determines the minor steps: when
      0 <= el/2 - t·es + k·el < el, k is MinorSteps(t, es, el). */
  lemma MinorStepsOfError(t: nat, es: nat, el: nat, k: nat)
    requires el > 0 && 0 <= el / 2 - t * es + k * el < el
    ensures MinorSteps(t, es, el) == k
  {
    DivUnique(t * es + el - 1 - el / 2, el, k);
  }

  /** The loop's count of wraps is the closed-form number of minor steps. */
  lemma WrapCountClosedForm(t: nat, es: nat, el: nat)
    requires 0 < el && es <= el
    ensures WrapCount(t, es, el) == MinorSteps(t, es, el)
  {
    ErrorBounds(t, es, el);
    ErrorInvariant(t, es, el);
    MinorStepsOfError(t, es, el, WrapCount(t, es, el));
  }

  /** One step of the closed form: the major axis always moves, the minor
      axis moves when the minor-step count goes up. */
  lemma LinePixelStep(x1: int, y1: int, x2: int, y2: int, t: nat, moved: bool)
    requires LineLength(x1, y1, x2, y2) > 0
    requires MinorSteps(t + 1, MinorLength(x1, y1, x2, y2), LineLength(x1, y1, x2, y2))
             == MinorSteps(t, MinorLength(x1, y1, x2, y2), LineLength(x1, y1, x2, y2)) + (if moved then 1 else 0)
    ensures var xMajor := Abs(x2 - x1) > Abs(y2 - y1);
            LinePixel(x1, y1, x2, y2, t + 1)
            == Pixel(LinePixel(x1, y1, x2, y2, t).x + (if xMajor || moved then Sign(x2 - x1) else 0),
                     LinePixel(x1, y1, x2, y2, t).y + (if !xMajor || moved then Sign(y2 - y1) else 0))
  {
    var incx, incy := Sign(x2 - x1), Sign(y2 - y1);
    var k := MinorSteps(t, MinorLength(x1, y1, x2, y2), LineLength(x1, y1, x2, y2));
    assert incx * (t + 1) == incx * t + incx;
    assert incy * (t + 1) == incy * t + incy;
    assert incx * (k + 1) == incx * k + incx;
    assert incy * (k + 1) == incy * k + incy;
  }

  /** The walk of the loop is the closed form: its t-th pixel is t steps
      along the major axis and MinorSteps(t) along the other. */
  lemma {:induction false} WalkClosedForm(x1: int, y1: int, x2: int, y2: int, t: nat)
    requires t == 0 || LineLength(x1, y1, x2, y2) > 0
    ensures Walk(x1, y1, x2, y2, t) == LinePixel(x1, y1, x2, y2, t)
  {
    var es, el := MinorLength(x1, y1, x2, y2), LineLength(x1, y1, x2, y2);
    if t == 0 {
      if el > 0 {
        MinorStepsOfError(0, es, el, 0);
      }
    } else {
      WalkClosedForm(x1, y1, x2, y2, t - 1);
      WrapCountClosedForm(t - 1, es, el);
      WrapCountClosedForm(t, es, el);
      LinePixelStep(x1, y1, x2, y2, t - 1, Wraps(t - 1, es, el));
    }
  }

  /** The line starts at (x1, y1) and ends at (x2, y2). */
  lemma {:induction false} LineEnds(x1: int, y1: int, x2: int, y2: int)
    ensures Line(x1, y1, x2, y2)[0] == Pixel(x1, y1)
    ensures Line(x1, y1, x2, y2)[LineLength(x1, y1, x2, y2)] == Pixel(x2, y2)
  {
    var es, el := MinorLength(x1, y1, x2, y2), LineLength(x1, y1, x2, y2);
    WalkClosedForm(x1, y1, x2, y2, el);
    if el > 0 {
      MinorStepsOfError(el, es, el, es);
    }
  }

  /** Each step moves the longer axis by exactly one towards the end point
      and the other axis by zero or one towards it, so consecutive pixels
      touch. */
  lemma {:induction false} LineSteps(x1: int, y1: int, x2: int, y2: int, t: nat)
    requires t < LineLength(x1, y1, x2, y2)
    ensures var p, q := Line(x1, y1, x2, y2)[t], Line(x1, y1, x2, y2)[t + 1];
            (Abs(x2 - x1) > Abs(y2 - y1) ==> q.x == p.x + Sign(x2 - x1) && (q.y == p.y || q.y == p.y + Sign(y2 - y1)))
            && (Abs(x2 - x1) <= Abs(y2 - y1) ==> q.y == p.y + Sign(y2 - y1) && (q.x == p.x || q.x == p.x + Sign(x2 - x1)))
            && Abs(q.x - p.x) <= 1 && Abs(q.y - p.y) <= 1
  {
    WalkClosedForm(x1, y1, x2, y2, t);
    WalkClosedForm(x1, y1, x2, y2, t + 1);
    MinorStepIsZeroOrOne(t, MinorLength(x1, y1, x2, y2), LineLength(x1, y1, x2, y2));
  }

  lemma MinorStepIsZeroOrOne(t: nat, es: nat, el: nat)
    requires 0 < el && es <= el
    ensures MinorSteps(t + 1, es, el) == MinorSteps(t, es, el)
            || MinorSteps(t + 1, es, el) == MinorSteps(t, es, el) + 1
  {
    assert (t + 1) * es == t * es + es;
    DivStep(t * es + el - 1 - el / 2, es, el);
  }

  /** Adding at most the divisor raises the quotient by at most one. */
  lemma DivStep(n: int, s: int, d: int)
    requires d > 0 && 0 <= s <= d
    ensures (n + s) / d == n / d || (n + s) / d == n / d + 1
  {
    var q, r := n / d, n % d;
    assert n == q * d + r && 0 <= r < d;
    if r + s < d {
      DivUnique(n + s, d, q);
    } else {
      assert (q + 1) * d == q * d + d;
      DivUnique(n + s, d, q + 1);
    }
  }

  /** drawTriangle: the edges 1→2, 2→3 and 3→1, in that order. */
  method DrawTriangle(x1: int, y1: int, x2: int, y2: int, x3: int, y3: int) returns (pixels: seq<Pixel>)
    ensures pixels == Line(x1, y1, x2, y2) + Line(x2, y2, x3, y3) + Line(x3, y3, x1, y1)
  {
    var a := DrawLine(x1, y1, x2, y2);
    var b := DrawLine(x2, y2, x3, y3);
    var c := DrawLine(x3, y3, x1, y1);
    pixels := a + b + c;
  }

  /** The outline starts and ends at vertex 1 and each edge starts where the
      previous one ended. */
  lemma OutlineIsClosed(x1: int, y1: int, x2: int, y2: int, x3: int, y3: int)
    ensures var e1, e2, e3 := Line(x1, y1, x2, y2), Line(x2, y2, x3, y3), Line(x3, y3, x1, y1);
            e1[0] == Pixel(x1, y1) && e1[|e1| - 1] == e2[0] == Pixel(x2, y2)
            && e2[|e2| - 1] == e3[0] == Pixel(x3, y3) && e3[|e3| - 1] == Pixel(x1, y1)
  {
    LineEnds(x1, y1, x2, y2);
    LineEnds(x2, y2, x3, y3);
    LineEnds(x3, y3, x1, y1);
  }

  // The interpolated outline.

  /** Math.max(0, Math.min(1, t)). */
  function Clamp01(t: real): (r: real)
    ensures 0.0 <= r <= 1.0
    ensures 0.0 <= t <= 1.0 ==> r == t
    ensures t < 0.0 ==> r == 0.0
    ensures t > 1.0 ==> r == 1.0
  {
    var m := if t < 1.0 then t else 1.0;
    if m > 0.0 then m else 0.0
  }

  /** Math.min(v, 1.0). */
  function CapAtOne(v: real): real
  {
    if v < 1.0 then v else 1.0
  }

  /** One channel of the blend: a·(1 - t) + b·t. */
  function Blend(a: real, b: real, t: real): real
  {
    a * (1.0 - t) + b * t
  }

  /** Every channel of a colour JavaFX accepts lies in [0, 1]. */
  predicate InGamut(c: Color)
  {
    0.0 <= c.red <= 1.0 && 0.0 <= c.green <= 1.0 && 0.0 <= c.blue <= 1.0 && 0.0 <= c.opacity <= 1.0
  }

  /** interpolateColor(color1, color2, t): t clamped to [0, 1], each channel
      the blend capped at 1, opacity always 1. */
  function InterpolateColor(color1: Color, color2: Color, t: real): (c: Color)
    ensures c.opacity == 1.0 && c.red <= 1.0 && c.green <= 1.0 && c.blue <= 1.0
  {
    var s := Clamp01(t);
    Color(CapAtOne(Blend(color1.red, color2.red, s)),
          CapAtOne(Blend(color1.green, color2.green, s)),
          CapAtOne(Blend(color1.blue, color2.blue, s)),
          1.0)
  }

  /** A blend with t in [0, 1] lies between its two ends. */
  lemma BlendBetween(a: real, b: real, t: real)
    requires 0.0 <= t <= 1.0
    ensures a <= b ==> a <= Blend(a, b, t) <= b
    ensures b <= a ==> b <= Blend(a, b, t) <= a
  {
    assert Blend(a, b, t) == a + (b - a) * t;
    if a <= b {
      MulBetween(b - a, t);
    } else {
      MulBetween(a - b, t);
      assert Blend(a, b, t) == a - (a - b) * t;
    }
  }

  lemma MulBetween(d: real, t: real)
    requires d >= 0.0 && 0.0 <= t <= 1.0
    ensures 0.0 <= d * t <= d
  {
    assert d * t <= d * 1.0;
  }

  /** Blending two colours JavaFX accepts gives one it accepts (so the
      Color constructor never throws), the clamped ends give the end
      colours, made opaque. */
  lemma InterpolateColorProperties(color1: Color, color2: Color, t: real)
    requires InGamut(color1) && InGamut(color2)
    ensures InGamut(InterpolateColor(color1, color2, t))
    ensures t <= 0.0 ==> InterpolateColor(color1, color2, t) == color1.(opacity := 1.0)
    ensures t >= 1.0 ==> InterpolateColor(color1, color2, t) == color2.(opacity := 1.0)
  {
    var s := Clamp01(t);
    BlendBetween(color1.red, color2.red, s);
    BlendBetween(color1.green, color2.green, s);
    BlendBetween(color1.blue, color2.blue, s);
  }

  /** The pixels drawLineInterpolated sets: none when the two ends coincide
      (the length sqrt(dx² + dy²) is zero), otherwise drawLine's walk (the
      loop is the same) followed by a last write at (x2, y2). The colours
      written, which depend on floating-point square roots, are not
      modelled. */
  method DrawLineInterpolated(x1: int, y1: int, x2: int, y2: int) returns (pixels: seq<Pixel>)
    ensures x1 == x2 && y1 == y2 ==> pixels == []
    ensures !(x1 == x2 && y1 == y2) ==> pixels == Line(x1, y1, x2, y2) + [Pixel(x2, y2)]
  {
    var dx := Abs(x2 - x1);
    var dy := Abs(y2 - y1);
    if dx * dx + dy * dy == 0 {
      assert dx == 0 && dy == 0 by { SquaresZero(dx, dy); }
      return [];
    }
    pixels := DrawLine(x1, y1, x2, y2);
    pixels := pixels + [Pixel(x2, y2)];
  }

  lemma SquaresZero(a: nat, b: nat)
    requires a * a + b * b == 0
    ensures a == 0 && b == 0
  {
    if a > 0 {
      MulAtLeast(a, a);
    } else if b > 0 {
      MulAtLeast(b, b);
    }
  }

  /** The last write of drawLineInterpolated lands on the pixel the walk
      already ended on, so it sets exactly the pixels drawLine sets. */
  lemma {:induction false} InterpolatedLineRepeatsEnd(x1: int, y1: int, x2: int, y2: int)
    ensures var l := Line(x1, y1, x2, y2);
            l + [Pixel(x2, y2)] == l + [l[|l| - 1]]
            && (set p | p in l + [Pixel(x2, y2)]) == (set p | p in l)
  {
    LineEnds(x1, y1, x2, y2);
    var l := Line(x1, y1, x2, y2);
    assert l[|l| - 1] in l;
  }

  /** drawInterpolatedTriangle: the interpolated edges 1→2, 2→3 and 3→1. */
  method DrawInterpolatedTriangle(x1: int, y1: int, x2: int, y2: int, x3: int, y3: int) returns (pixels: seq<Pixel>)
    ensures pixels == InterpolatedEdge(x1, y1, x2, y2) + InterpolatedEdge(x2, y2, x3, y3) + InterpolatedEdge(x3, y3, x1, y1)
  {
    var a := DrawLineInterpolated(x1, y1, x2, y2);
    var b := DrawLineInterpolated(x2, y2, x3, y3);
    var c := DrawLineInterpolated(x3, y3, x1, y1);
    pixels := a + b + c;
  }

  /** The pixels of one interpolated edge. */
  function InterpolatedEdge(x1: int, y1: int, x2: int, y2: int): seq<Pixel>
  {
    if x1 == x2 && y1 == y2 then [] else Line(x1, y1, x2, y2) + [Pixel(x2, y2)]
  }

  /** p lists the positions 0, 1 and 2, each once. */
  predicate IsPermutation3(p: seq<nat>)
  {
    |p| == 3 && p[0] < 3 && p[1] < 3 && p[2] < 3 && p[0] != p[1] && p[1] != p[2] && p[0] != p[2]
  }

  /** now holds the three entries of before in the order p gives. */
  predicate Reordered<T(==)>(now: seq<T>, before: seq<T>, p: seq<nat>)
    requires IsPermutation3(p)
  {
    |now| == 3 && |before| == 3 && now[0] == before[p[0]] && now[1] == before[p[1]] && now[2] == before[p[2]]
  }

  /** s with the entries at i and j exchanged. */
  function SwapAt<T>(s: seq<T>, i: nat, j: nat): (r: seq<T>)
    requires i < |s| && j < |s|
    ensures |r| == |s| && r[i] == s[j] && r[j] == s[i]
    ensures forall k :: 0 <= k < |s| && k != i && k != j ==> r[k] == s[k]
  {
    s[i := s[j]][j := s[i]]
  }

  /** Exchanging two entries of a reordering is again a reordering, by the
      permutation with the same two entries exchanged. */
  lemma SwapReorders<T>(now: seq<T>, before: seq<T>, p: seq<nat>, i: nat, j: nat)
    requires IsPermutation3(p) && Reordered(now, before, p) && i < j < 3
    ensures IsPermutation3(SwapAt(p, i, j)) && Reordered(SwapAt(now, i, j), before, SwapAt(p, i, j))
  {
  }

  /** The positions below i hold the smallest values, in order. */
  predicate Settled(ys: seq<int>, i: int)
    requires |ys| == 3
  {
    (i >= 1 ==> ys[0] <= ys[1] && ys[0] <= ys[2]) && (i >= 2 ==> ys[1] <= ys[2])
  }

  /** ys[i] is at most every entry after it and before j. */
  predicate LeastSoFar(ys: seq<int>, i: int, j: int)
    requires |ys| == 3 && 0 <= i < 3
  {
    (i < 1 < j ==> ys[i] <= ys[1]) && (i < 2 < j ==> ys[i] <= ys[2])
  }

  /** One step of fillTriangle's exchange sort on positions i < j: the two
      vertices swap when ys[i] > ys[j]. */
  method OrderPair(xs: array<int>, ys: array<int>, i: nat, j: nat)
    requires xs.Length == 3 && ys.Length == 3 && xs != ys && i < j < 3
    modifies xs, ys
    ensures old(ys[i]) > old(ys[j]) ==> xs[..] == SwapAt(old(xs[..]), i, j) && ys[..] == SwapAt(old(ys[..]), i, j)
    ensures old(ys[i]) <= old(ys[j]) ==> xs[..] == old(xs[..]) && ys[..] == old(ys[..])
  {
    if ys[i] > ys[j] {
      var tempX := xs[i];
      xs[i] := xs[j];
      xs[j] := tempX;
      var tempY := ys[i];
      ys[i] := ys[j];
      ys[j] := tempY;
    }
  }

  /** The exchange sort of fillTriangle: for each i and each later j, the
      two vertices swap when ys[i] > ys[j]. Afterwards ys ascends, and xs
      and ys are the given coordinates reordered by one permutation, so
      every vertex keeps its x with its y. */
  method SortByY(xs: array<int>, ys: array<int>) returns (ghost perm: seq<nat>)
    requires xs.Length == 3 && ys.Length == 3 && xs != ys
    modifies xs, ys
    ensures ys[0] <= ys[1] <= ys[2]
    ensures IsPermutation3(perm) && Reordered(xs[..], old(xs[..]), perm) && Reordered(ys[..], old(ys[..]), perm)
  {
    perm := [0, 1, 2];
    ghost var xs0, ys0 := xs[..], ys[..];
    ghost var X, Y := xs0, ys0;
    for i := 0 to 3
      invariant xs[..] == X && ys[..] == Y && |Y| == 3
      invariant Settled(Y, i)
      invariant IsPermutation3(perm) && Reordered(X, xs0, perm) && Reordered(Y, ys0, perm)
    {
      for j := i + 1 to 3
        invariant xs[..] == X && ys[..] == Y && |Y| == 3
        invariant Settled(Y, i) && LeastSoFar(Y, i, j)
        invariant IsPermutation3(perm) && Reordered(X, xs0, perm) && Reordered(Y, ys0, perm)
      {
        OrderPair(xs, ys, i, j);
        if Y[i] > Y[j] {
          SwapReorders(X, xs0, perm, i, j);
          SwapReorders(Y, ys0, perm, i, j);
          perm := SwapAt(perm, i, j);
          X, Y := SwapAt(X, i, j), SwapAt(Y, i, j);
        }
      }
    }
  }

  /** swap(arr, i, j) of the interpolated fill. */
  method Swap<T>(arr: array<T>, i: nat, j: nat)
    requires i < arr.Length && j < arr.Length
    modifies arr
    ensures arr[..] == SwapAt(old(arr[..]), i, j)
  {
    var temp := arr[i];
    arr[i] := arr[j];
    arr[j] := temp;
  }

  /** One step of fillTriangleInterpolated's sort: swap(xs), swap(ys) and
      swap(colors) on positions i < j when ys[i] > ys[j]. */
  method OrderColouredPair(xs: array<int>, ys: array<int>, colors: array<Color>, i: nat, j: nat)
    requires xs.Length == 3 && ys.Length == 3 && colors.Length == 3 && xs != ys && i < j < 3
    modifies xs, ys, colors
    ensures old(ys[i]) > old(ys[j]) ==> xs[..] == SwapAt(old(xs[..]), i, j) && ys[..] == SwapAt(old(ys[..]), i, j)
                                        && colors[..] == SwapAt(old(colors[..]), i, j)
    ensures old(ys[i]) <= old(ys[j]) ==> xs[..] == old(xs[..]) && ys[..] == old(ys[..]) && colors[..] == old(colors[..])
  {
    if ys[i] > ys[j] {
      Swap(xs, i, j);
      Swap(ys, i, j);
      Swap(colors, i, j);
    }
  }

  /** The same sort in fillTriangleInterpolated, carrying the colours along:
      ys ascends, and xs, ys and colors are the given ones reordered by one
      permutation. */
  method SortByYWithColors(xs: array<int>, ys: array<int>, colors: array<Color>) returns (ghost perm: seq<nat>)
    requires xs.Length == 3 && ys.Length == 3 && colors.Length == 3 && xs != ys
    modifies xs, ys, colors
    ensures ys[0] <= ys[1] <= ys[2]
    ensures IsPermutation3(perm) && Reordered(xs[..], old(xs[..]), perm) && Reordered(ys[..], old(ys[..]), perm)
            && Reordered(colors[..], old(colors[..]), perm)
  {
    perm := [0, 1, 2];
    ghost var xs0, ys0, cs0 := xs[..], ys[..], colors[..];
    ghost var X, Y, C := xs0, ys0, cs0;
    for i := 0 to 3
      invariant xs[..] == X && ys[..] == Y && colors[..] == C && |Y| == 3
      invariant Settled(Y, i)
      invariant IsPermutation3(perm) && Reordered(X, xs0, perm) && Reordered(Y, ys0, perm) && Reordered(C, cs0, perm)
    {
      for j := i + 1 to 3
        invariant xs[..] == X && ys[..] == Y && colors[..] == C && |Y| == 3
        invariant Settled(Y, i) && LeastSoFar(Y, i, j)
        invariant IsPermutation3(perm) && Reordered(X, xs0, perm) && Reordered(Y, ys0, perm) && Reordered(C, cs0, perm)
      {
        OrderColouredPair(xs, ys, colors, i, j);
        if Y[i] > Y[j] {
          SwapReorders(X, xs0, perm, i, j);
          SwapReorders(Y, ys0, perm, i, j);
          SwapReorders(C, cs0, perm, i, j);
          perm := SwapAt(perm, i, j);
          X, Y, C := SwapAt(X, i, j), SwapAt(Y, i, j), SwapAt(C, i, j);
        }
      }
    }
  }

  /** The rows y0, y0 + 1, ..., y2 - 1. */
  function Rows(y0: int, y2: int): (r: seq<int>)
    requires y0 <= y2
    ensures |r| == y2 - y0 && forall i :: 0 <= i < |r| ==> r[i] == y0 + i
  {
    seq(y2 - y0, i requires 0 <= i => y0 + i)
  }

  /** The row loop of fillTriangle over sorted vertices: row t0y + i for
      every i below the total height, skipping a row whose half has height
      zero. That guard never fires (a half of height zero is never the half
      of a row), so every row from t0y up to, but not including, t2y gets a
      span; a triangle of height zero gets none. */
  method ScanlineRows(t0y: int, t1y: int, t2y: int) returns (rows: seq<int>)
    requires t0y <= t1y <= t2y
    ensures rows == Rows(t0y, t2y)
    ensures t2y == t0y ==> rows == []
  {
    var totalHeight := t2y - t0y;
    rows := [];
    for i := 0 to totalHeight
      invariant rows == Rows(t0y, t0y + i)
    {
      var secondHalf := i > t1y - t0y || t1y == t0y;
      var segmentHeight := if secondHalf then t2y - t1y else t1y - t0y;
      if totalHeight == 0 || segmentHeight == 0 {
        continue;
      }
      rows := rows + [t0y + i];
    }
  }

  /** fillTriangle: the outline first, then one span per row of the
      sorted vertices (the span ends are float interpolations and are not
      modelled). */
  method FillTriangle(x1: int, y1: int, x2: int, y2: int, x3: int, y3: int)
    returns (outline: seq<Pixel>, rows: seq<int>)
    ensures outline == Line(x1, y1, x2, y2) + Line(x2, y2, x3, y3) + Line(x3, y3, x1, y1)
    ensures rows == Rows(Min3(y1, y2, y3), Max3(y1, y2, y3))
    ensures y1 == y2 == y3 ==> rows == []
  {
    outline := DrawTriangle(x1, y1, x2, y2, x3, y3);
    var xs := new int[3][x1, x2, x3];
    var ys := new int[3][y1, y2, y3];
    assert ys[..] == [y1, y2, y3];
    ghost var perm := SortByY(xs, ys);
    SortedEnds(y1, y2, y3, ys[..], perm);
    rows := ScanlineRows(ys[0], ys[1], ys[2]);
  }

  /** fillTriangleInterpolated: the interpolated outline, the sort that
      carries the colours along, no rows at all for a triangle of height
      zero, and otherwise the same rows as fillTriangle (the spans and
      their colours are float interpolations and are not modelled). */
  method FillTriangleInterpolated(x1: int, y1: int, color1: Color, x2: int, y2: int, color2: Color,
                                  x3: int, y3: int, color3: Color)
    returns (outline: seq<Pixel>, rows: seq<int>)
    ensures outline == InterpolatedEdge(x1, y1, x2, y2) + InterpolatedEdge(x2, y2, x3, y3) + InterpolatedEdge(x3, y3, x1, y1)
    ensures rows == Rows(Min3(y1, y2, y3), Max3(y1, y2, y3))
  {
    outline := DrawInterpolatedTriangle(x1, y1, x2, y2, x3, y3);
    var xs := new int[3][x1, x2, x3];
    var ys := new int[3][y1, y2, y3];
    var colors := new Color[3][color1, color2, color3];
    assert ys[..] == [y1, y2, y3];
    ghost var perm := SortByYWithColors(xs, ys, colors);
    SortedEnds(y1, y2, y3, ys[..], perm);
    var totalHeight := ys[2] - ys[0];
    if totalHeight == 0 {
      return outline, [];
    }
    rows := ScanlineRows(ys[0], ys[1], ys[2]);
  }

  function Min3(a: int, b: int, c: int): (r: int)
    ensures r <= a && r <= b && r <= c && (r == a || r == b || r == c)
  {
    if a <= b && a <= c then a else if b <= c then b else c
  }

  function Max3(a: int, b: int, c: int): (r: int)
    ensures r >= a && r >= b && r >= c && (r == a || r == b || r == c)
  {
    if a >= b && a >= c then a else if b >= c then b else c
  }

  /** Sorting three values puts their minimum first and their maximum last. */
  lemma SortedEnds(y1: int, y2: int, y3: int, ys: seq<int>, p: seq<nat>)
    requires IsPermutation3(p) && Reordered(ys, [y1, y2, y3], p) && ys[0] <= ys[1] <= ys[2]
    ensures ys[0] == Min3(y1, y2, y3) && ys[2] == Max3(y1, y2, y3)
  {
  }
}
