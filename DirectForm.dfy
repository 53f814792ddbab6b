/**
 * The direct-form-I second-order section that every filter loop of the
 * library evaluates:
 *
 *   y[n] = a0*x[n] + a1*x[n-1] + a2*x[n-2] - b1*y[n-1] - b2*y[n-2]
 *
 * with four delay registers that are updated after each sample in a fixed
 * order (shift y[n-1] into y[n-2], store y[n]; shift x[n-1] into x[n-2],
 * store x[n]). Df1 is the reference definition the filter methods are proved
 * against; the lemmas give its index-wise recurrence (both directions),
 * linearity, the zero-input response and the identity section.
 */
module DirectForm {

  /** Feed-forward gains a0, a1, a2 and feedback gains b1, b2 (the leading feedback gain is 1). */
  datatype Coeffs = Coeffs(a0: real, a1: real, a2: real, b1: real, b2: real)

  /** The delay registers x[n-1], x[n-2], y[n-1], y[n-2]. */
  datatype Registers = Registers(x1: real, x2: real, y1: real, y2: real)

  /** The registers of a freshly started filter. */
  const Cleared: Registers := Registers(0.0, 0.0, 0.0, 0.0)

  /** The output for input sample xn, computed from the current registers. */
  function Output(c: Coeffs, r: Registers, xn: real): real
  {
    c.a0 * xn + c.a1 * r.x1 + c.a2 * r.x2 - c.b1 * r.y1 - c.b2 * r.y2
  }

  /** The registers after a sample: y[n-1] moves to y[n-2] and yn is stored, then the same for x. */
  function Shift(r: Registers, xn: real, yn: real): Registers
  {
    Registers(xn, r.x1, yn, r.y1)
  }

  /** The outputs for input x, starting from registers r. */
  function Df1From(c: Coeffs, r: Registers, x: seq<real>): (y: seq<real>)
    ensures |y| == |x|
    decreases |x|
  {
    if x == [] then []
    else
      var yn := Output(c, r, x[0]);
      [yn] + Df1From(c, Shift(r, x[0], yn), x[1..])
  }

  /** The outputs for input x, starting from cleared registers. */
  function Df1(c: Coeffs, x: seq<real>): (y: seq<real>)
    ensures |y| == |x|
  {
    Df1From(c, Cleared, x)
  }

  /** s[i - k], or 0 for a position before the start of s. */
  function Past(s: seq<real>, i: int, k: int): real
    requires 1 <= k && i <= |s|
  {
    if i - k >= 0 then s[i - k] else 0.0
  }

  /** s[j] for j >= 0; position -1 holds `latest` and -2 holds `earlier` (a register's history). */
  function Before(s: seq<real>, latest: real, earlier: real, j: int): real
    requires -2 <= j < |s|
  {
    if j >= 0 then s[j] else if j == -1 then latest else earlier
  }

  /** The registers a filter loop holds after i samples, with outputs y so far. */
  function RegistersAfter(x: seq<real>, y: seq<real>, i: int): Registers
    requires 0 <= i <= |x| && i <= |y|
  {
    Registers(Past(x, i, 1), Past(x, i, 2), Past(y, i, 1), Past(y, i, 2))
  }

  /** Output sample i obeys the recurrence, with zeros before the start of x and y. */
  ghost predicate RecurrenceAt(c: Coeffs, x: seq<real>, y: seq<real>, i: int)
    requires 0 <= i < |x| && |y| == |x|
  {
    y[i] == c.a0 * x[i] + c.a1 * Past(x, i, 1) + c.a2 * Past(x, i, 2)
            - c.b1 * Past(y, i, 1) - c.b2 * Past(y, i, 2)
  }

  /** y is the direct-form-I response to x from cleared registers, stated sample by sample. */
  ghost predicate SatisfiesDf1(c: Coeffs, x: seq<real>, y: seq<real>)
  {
    |y| == |x| && forall i :: 0 <= i < |x| ==> RecurrenceAt(c, x, y, i)
  }

  /** Sample i of a run started from registers r obeys the recurrence, the registers standing in for
      the samples before the start. */
  lemma {:induction false} Df1FromAt(c: Coeffs, r: Registers, x: seq<real>, i: int)
    requires 0 <= i < |x|
    decreases i
    ensures var y := Df1From(c, r, x);
      y[i] == c.a0 * x[i] + c.a1 * Before(x, r.x1, r.x2, i - 1) + c.a2 * Before(x, r.x1, r.x2, i - 2)
              - c.b1 * Before(y, r.y1, r.y2, i - 1) - c.b2 * Before(y, r.y1, r.y2, i - 2)
  {
    var y := Df1From(c, r, x);
    var yn := Output(c, r, x[0]);
    var r' := Shift(r, x[0], yn);
    var rest := Df1From(c, r', x[1..]);
    assert y == [yn] + rest;
    if i > 0 {
      Df1FromAt(c, r', x[1..], i - 1);
      assert y[i] == rest[i - 1];
      assert Before(x[1..], r'.x1, r'.x2, i - 2) == Before(x, r.x1, r.x2, i - 1);
      assert Before(x[1..], r'.x1, r'.x2, i - 3) == Before(x, r.x1, r.x2, i - 2);
      assert Before(rest, r'.y1, r'.y2, i - 2) == Before(y, r.y1, r.y2, i - 1);
      assert Before(rest, r'.y1, r'.y2, i - 3) == Before(y, r.y1, r.y2, i - 2);
    }
  }

  /** From cleared registers, Df1 obeys the recurrence sample by sample. */
  lemma Df1At(c: Coeffs, x: seq<real>, i: int)
    requires 0 <= i < |x|
    ensures var y := Df1(c, x);
      y[i] == c.a0 * x[i] + c.a1 * Past(x, i, 1) + c.a2 * Past(x, i, 2)
              - c.b1 * Past(y, i, 1) - c.b2 * Past(y, i, 2)
  {
    var y := Df1(c, x);
    Df1FromAt(c, Cleared, x, i);
    assert Before(x, 0.0, 0.0, i - 1) == Past(x, i, 1);
    assert Before(x, 0.0, 0.0, i - 2) == Past(x, i, 2);
    assert Before(y, 0.0, 0.0, i - 1) == Past(y, i, 1);
    assert Before(y, 0.0, 0.0, i - 2) == Past(y, i, 2);
  }

  /** Two solutions of the recurrence for the same input agree on their first n samples. */
  lemma {:induction false} SolutionsAgree(c: Coeffs, x: seq<real>, y: seq<real>, z: seq<real>, n: int)
    requires SatisfiesDf1(c, x, y) && SatisfiesDf1(c, x, z)
    requires 0 <= n <= |x|
    ensures forall j :: 0 <= j < n ==> y[j] == z[j]
  {
    if n > 0 {
      SolutionsAgree(c, x, y, z, n - 1);
      var i := n - 1;
      assert RecurrenceAt(c, x, y, i) && RecurrenceAt(c, x, z, i);
      assert Past(y, i, 1) == Past(z, i, 1);
      assert Past(y, i, 2) == Past(z, i, 2);
    }
  }

  /** The recurrence determines the output: y satisfies it exactly when y is Df1's response. */
  lemma Df1Characterized(c: Coeffs, x: seq<real>, y: seq<real>)
    ensures SatisfiesDf1(c, x, y) <==> y == Df1(c, x)
  {
    var z := Df1(c, x);
    forall i | 0 <= i < |x|
      ensures RecurrenceAt(c, x, z, i)
    {
      Df1At(c, x, i);
    }
    assert SatisfiesDf1(c, x, z);
    if SatisfiesDf1(c, x, y) {
      SolutionsAgree(c, x, y, z, |x|);
    }
  }

  /** The loop step: emitting yn, the output for x[i] from the registers after i samples, and
      moving to the registers after i + 1 samples (the old ones shifted by x[i] and yn) leaves the
      overall response unchanged. */
  lemma Df1Step(c: Coeffs, x: seq<real>, out: seq<real>, i: int, yn: real)
    requires 0 <= i < |x| && |out| == i
    requires yn == Output(c, RegistersAfter(x, out, i), x[i])
    ensures RegistersAfter(x, out + [yn], i + 1) == Shift(RegistersAfter(x, out, i), x[i], yn)
    ensures out + Df1From(c, RegistersAfter(x, out, i), x[i..])
      == (out + [yn]) + Df1From(c, RegistersAfter(x, out + [yn], i + 1), x[i + 1..])
  {
    var r := RegistersAfter(x, out, i);
    assert x[i..][1..] == x[i + 1..];
    assert RegistersAfter(x, out + [yn], i + 1) == Shift(r, x[i], yn);
  }

  /** The loop start: nothing emitted yet, cleared registers, the whole input to go. */
  lemma Df1Start(c: Coeffs, x: seq<real>)
    ensures [] + Df1From(c, RegistersAfter(x, [], 0), x[0..]) == Df1(c, x)
  {
    assert x[0..] == x;
  }

  /** Every sample scaled by g. */
  function Scaled(s: seq<real>, g: real): seq<real>
  {
    seq(|s|, i requires 0 <= i < |s| => g * s[i])
  }

  /** Scaling a signal scales each of its past samples. */
  lemma ScaledPast(s: seq<real>, g: real, i: int, k: int)
    requires 1 <= k && 0 <= i <= |s|
    ensures Past(Scaled(s, g), i, k) == g * Past(s, i, k)
  {
  }

  /** One output computed from a scaled input sample and scaled registers is the scaled output. */
  lemma OutputScales(c: Coeffs, g: real, x0: real, p1: real, p2: real, q1: real, q2: real, y0: real)
    requires y0 == c.a0 * x0 + c.a1 * p1 + c.a2 * p2 - c.b1 * q1 - c.b2 * q2
    ensures g * y0 == c.a0 * (g * x0) + c.a1 * (g * p1) + c.a2 * (g * p2) - c.b1 * (g * q1) - c.b2 * (g * q2)
  {
  }

  /** Scaling input and output by the same g keeps sample i on the recurrence. */
  lemma ScaledRecurrenceAt(c: Coeffs, x: seq<real>, y: seq<real>, g: real, i: int)
    requires 0 <= i < |x| && |y| == |x| && RecurrenceAt(c, x, y, i)
    ensures RecurrenceAt(c, Scaled(x, g), Scaled(y, g), i)
  {
    ScaledPast(x, g, i, 1);
    ScaledPast(x, g, i, 2);
    ScaledPast(y, g, i, 1);
    ScaledPast(y, g, i, 2);
    OutputScales(c, g, x[i], Past(x, i, 1), Past(x, i, 2), Past(y, i, 1), Past(y, i, 2), y[i]);
  }

  /** Linearity: scaling the input by g scales the output by g. */
  lemma Df1Linear(c: Coeffs, x: seq<real>, g: real)
    ensures Df1(c, Scaled(x, g)) == Scaled(Df1(c, x), g)
  {
    var y := Df1(c, x);
    var gx, gy := Scaled(x, g), Scaled(y, g);
    Df1Characterized(c, x, y);
    forall i | 0 <= i < |x|
      ensures RecurrenceAt(c, gx, gy, i)
    {
      ScaledRecurrenceAt(c, x, y, g, i);
    }
    Df1Characterized(c, gx, gy);
  }

  /** Zero input from cleared registers gives zero output, whatever the gains. */
  lemma Df1ZeroInput(c: Coeffs, x: seq<real>)
    requires forall i :: 0 <= i < |x| ==> x[i] == 0.0
    ensures forall i :: 0 <= i < |x| ==> Df1(c, x)[i] == 0.0
  {
    assert Scaled(x, 0.0) == x;
    Df1Linear(c, x, 0.0);
  }

  /** A section whose numerator equals its denominator (a0 = 1, a1 = b1, a2 = b2) passes its input
      through unchanged. */
  lemma Df1Identity(c: Coeffs, x: seq<real>)
    requires c.a0 == 1.0 && c.a1 == c.b1 && c.a2 == c.b2
    ensures Df1(c, x) == x
  {
    Df1Characterized(c, x, x);
  }

  /** The transfer function's numerator and denominator at z = 1 (DC) and z = -1 (Nyquist);
      the section's gain at DC is DcNumerator / DcDenominator, and likewise at Nyquist. */
  function DcNumerator(c: Coeffs): real { c.a0 + c.a1 + c.a2 }
  function DcDenominator(c: Coeffs): real { 1.0 + c.b1 + c.b2 }
  function NyquistNumerator(c: Coeffs): real { c.a0 - c.a1 + c.a2 }
  function NyquistDenominator(c: Coeffs): real { 1.0 - c.b1 + c.b2 }

  /** The gain at DC is g (stated without dividing, so it also covers a zero denominator). */
  predicate GainAtDc(c: Coeffs, g: real) { DcNumerator(c) == g * DcDenominator(c) }

  /** The gain at Nyquist is g. */
  predicate GainAtNyquist(c: Coeffs, g: real) { NyquistNumerator(c) == g * NyquistDenominator(c) }

  /** n samples, all u. */
  function Constant(u: real, n: nat): seq<real>
  {
    seq(n, _ => u)
  }

  /** With DC gain g, a constant input u keeps the output at g * u once the registers hold that level. */
  lemma {:induction false} Df1SteadyDc(c: Coeffs, g: real, u: real, n: nat)
    requires GainAtDc(c, g)
    ensures Df1From(c, Registers(u, u, g * u, g * u), Constant(u, n)) == Constant(g * u, n)
    decreases n
  {
    if n > 0 {
      var x := Constant(u, n);
      var r := Registers(u, u, g * u, g * u);
      calc {
        Output(c, r, x[0]);
        u * DcNumerator(c) - g * u * (DcDenominator(c) - 1.0);
        g * u;
      }
      assert Shift(r, x[0], g * u) == r;
      assert x[1..] == Constant(u, n - 1);
      assert Df1From(c, r, x) == [g * u] + Df1From(c, r, Constant(u, n - 1));
      Df1SteadyDc(c, g, u, n - 1);
      assert Constant(g * u, n) == [g * u] + Constant(g * u, n - 1);
    }
  }

  /** n samples alternating u, -u, u, ... */
  function Alternating(u: real, n: nat): seq<real>
  {
    seq(n, i => if i % 2 == 0 then u else -u)
  }

  /** With Nyquist gain g, the alternating input u, -u, u, ... keeps the output alternating at
      g * u once the registers hold that pattern. */
  lemma {:induction false} Df1SteadyNyquist(c: Coeffs, g: real, u: real, n: nat)
    requires GainAtNyquist(c, g)
    ensures Df1From(c, Registers(-u, u, -(g * u), g * u), Alternating(u, n)) == Alternating(g * u, n)
    decreases n
  {
    if n > 0 {
      var x := Alternating(u, n);
      var r := Registers(-u, u, -(g * u), g * u);
      calc {
        Output(c, r, x[0]);
        u * NyquistNumerator(c) + g * u * (c.b1 - c.b2);
        g * u;
      }
      var w := -u;
      var r' := Registers(-w, w, -(g * w), g * w);
      assert Shift(r, x[0], g * u) == r';
      assert x[1..] == Alternating(w, n - 1);
      assert Df1From(c, r, x) == [g * u] + Df1From(c, r', Alternating(w, n - 1));
      Df1SteadyNyquist(c, g, w, n - 1);
      assert Alternating(g * u, n) == [g * u] + Alternating(g * w, n - 1);
    }
  }
}
