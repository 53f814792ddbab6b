/**
 * The filter helpers of python/util_functions.py that are not copies of the
 * ones in python/algo_dsp_filters.py: the single-step feed-forward and
 * feedback equations and its own biquad loop. That loop computes each output
 * and shifts its registers, but never writes the output array, so it returns
 * silence; BiQuadCorrected stores the sample it computes and is the plain
 * direct-form-I section. (simple_resonator and second_order_lowpass here are
 * the same code as Filters.SimpleResonator and Filters.SecondOrderLowpass, and
 * the signal generators the same as those of WpInputs.)
 */
module UtilFunctions {
  import opened DirectForm
  import opened Filters
  import opened WpInputs

  /** Equation 9.1: one feed-forward step, a0*x + a1*x[n-1]; it is the direct-form-I step with the
      one-zero gains, whatever the registers it ignores hold. */
  function FirstOrderFeedForward(x: real, xn1: real, a0: real, a1: real): (r: real)
    ensures forall x2: real, y1: real, y2: real :: r == Output(OneZeroCoeffs(a0, a1), Registers(xn1, x2, y1, y2), x)
  {
    a0 * x + a1 * xn1
  }

  /** Equation 9.2: one feedback step, a0*x - b1*y[n-1]; it is the direct-form-I step with the
      one-pole gains, whatever the registers it ignores hold. */
  function FirstOrderFeedback(x: real, yn1: real, a0: real, b1: real): (r: real)
    ensures forall x1: real, x2: real, y2: real :: r == Output(OnePoleCoeffs(a0, b1), Registers(x1, x2, yn1, y2), x)
  {
    a0 * x - b1 * yn1
  }

  /** Every sample one_zero_filter emits is one feed-forward step on the current and previous inputs. */
  lemma FeedForwardIsOneZero(a0: real, a1: real, x: seq<real>, i: int)
    requires 0 <= i < |x|
    ensures Df1(OneZeroCoeffs(a0, a1), x)[i] == FirstOrderFeedForward(x[i], Past(x, i, 1), a0, a1)
  {
    Df1At(OneZeroCoeffs(a0, a1), x, i);
  }

  /** Every sample one_pole_filter emits is one feedback step on the current input and the previous output. */
  lemma FeedbackIsOnePole(a0: real, b1: real, x: seq<real>, i: int)
    requires 0 <= i < |x|
    ensures var y := Df1(OnePoleCoeffs(a0, b1), x);
      y[i] == FirstOrderFeedback(x[i], Past(y, i, 1), a0, b1)
  {
    Df1At(OnePoleCoeffs(a0, b1), x, i);
  }

  /** n zero samples. */
  function Silence(n: nat): (s: seq<real>)
    ensures |s| == n && forall i :: 0 <= i < n ==> s[i] == 0.0
  {
    seq(n, _ => 0.0)
  }

  /** bi_quad as written: out starts as zeros, and the loop computes yn and shifts the registers
      but never writes yn into out, so the result is all zeros, whatever the gains. The ghost
      registers show that what the loop computes is the section's response. */
  method BiQuadAsWritten(samples: seq<real>, params: Coeffs) returns (out: seq<real>)
    ensures out == Silence(|samples|)
  {
    var y := new real[|samples|](_ => 0.0);
    var xz1, xz2, yz1, yz2 := 0.0, 0.0, 0.0, 0.0;
    for i := 0 to |samples|
      invariant forall j :: 0 <= j < y.Length ==> y[j] == 0.0
      invariant Registers(xz1, xz2, yz1, yz2) == RegistersAfter(samples, Df1(params, samples), i)
    {
      var yn := params.a0 * samples[i] + params.a1 * xz1 + params.a2 * xz2 - params.b1 * yz1 - params.b2 * yz2;
      Df1At(params, samples, i);
      yz2 := yz1;
      yz1 := yn;
      xz2 := xz1;
      xz1 := samples[i];
    }
    out := y[..];
  }

  /** bi_quad with the computed sample stored, as the earlevel biquad it follows does: the
      direct-form-I section with gains params, without the extra input term of Filters.BiQuad. */
  method BiQuadCorrected(samples: seq<real>, params: Coeffs) returns (out: seq<real>)
    ensures out == Df1(params, samples)
  {
    var y := new real[|samples|](_ => 0.0);
    var xz1, xz2, yz1, yz2 := 0.0, 0.0, 0.0, 0.0;
    Df1Start(params, samples);
    for i := 0 to |samples|
      invariant RegistersAfter(samples, y[..i], i) == Registers(xz1, xz2, yz1, yz2)
      invariant y[..i] + Df1From(params, RegistersAfter(samples, y[..i], i), samples[i..]) == Df1(params, samples)
    {
      ghost var done := y[..i];
      var yn := params.a0 * samples[i] + params.a1 * xz1 + params.a2 * xz2 - params.b1 * yz1 - params.b2 * yz2;
      assert yn == Output(params, Registers(xz1, xz2, yz1, yz2), samples[i]);
      Df1Step(params, samples, done, i, yn);
      y[i] := yn;
      assert y[..i + 1] == done + [yn];
      yz2 := yz1;
      yz1 := yn;
      xz2 := xz1;
      xz1 := samples[i];
    }
    assert samples[|samples|..] == [];
    out := y[..];
  }

  /** The pass-through gains a0 = 1 (all others 0): the corrected loop returns its input, so any
      input with a nonzero sample tells the as-written loop's silence apart from the intended output. */
  lemma BiQuadDropsOutput(x: seq<real>, i: int)
    requires 0 <= i < |x| && x[i] != 0.0
    ensures Df1(Coeffs(1.0, 0.0, 0.0, 0.0, 0.0), x) == x
    ensures Df1(Coeffs(1.0, 0.0, 0.0, 0.0, 0.0), x) != Silence(|x|)
  {
    Df1Identity(Coeffs(1.0, 0.0, 0.0, 0.0, 0.0), x);
    assert Silence(|x|)[i] == 0.0;
  }

  /** The impulse input through the pass-through gains: intended output 1 at index 1, as-written 0. */
  lemma BiQuadDropsImpulse(c: Coeffs, x: seq<real>)
    requires c == Coeffs(1.0, 0.0, 0.0, 0.0, 0.0) && x == Impulse
    ensures Df1(c, x) == x && x[1] == 1.0
    ensures Df1(c, x) != Silence(|x|)
  {
    assert x[1] == 1.0;
    BiQuadDropsOutput(x, 1);
  }
}
