/**
 * The filters of python/algo_dsp_filters.py: the one-zero and one-pole
 * first-order filters, the simple resonator, the second-order low-pass, the
 * biquad loop (which adds the input sample once more to each output) and the
 * stateful DC blocker. Each loop is proved equal to the direct-form-I
 * reference Df1 with the gains the loop uses.
 */
module Filters {
  import opened DirectForm

  /** The gains of y[n] = a0*x[n] + a1*x[n-1]. */
  function OneZeroCoeffs(a0: real, a1: real): Coeffs { Coeffs(a0, a1, 0.0, 0.0, 0.0) }

  /** The gains of y[n] = a0*x[n] - b1*y[n-1]. */
  function OnePoleCoeffs(a0: real, b1: real): Coeffs { Coeffs(a0, 0.0, 0.0, b1, 0.0) }

  /** The gains of y[n] = a0*x[n] - b1*y[n-1] - b2*y[n-2]. */
  function ResonatorCoeffs(a0: real, b1: real, b2: real): Coeffs { Coeffs(a0, 0.0, 0.0, b1, b2) }

  /** bi_quad's extra `signal[i]` term: the same section with 1 added to a0. */
  function PassThrough(c: Coeffs): Coeffs { c.(a0 := 1.0 + c.a0) }

  /** one_zero_filter: y[n] = a0*x[n] + a1*x[n-1], x[-1] = 0, one output appended per input. */
  method OneZeroFilter(samples: seq<real>, a0: real, a1: real) returns (out: seq<real>)
    ensures out == Df1(OneZeroCoeffs(a0, a1), samples)
  {
    ghost var c := OneZeroCoeffs(a0, a1);
    out := [];
    var x1 := 0.0;
    Df1Start(c, samples);
    for i := 0 to |samples|
      invariant |out| == i
      invariant x1 == Past(samples, i, 1)
      invariant out + Df1From(c, RegistersAfter(samples, out, i), samples[i..]) == Df1(c, samples)
    {
      var xn := samples[i];
      var yn := a0 * xn + a1 * x1;
      assert yn == Output(c, RegistersAfter(samples, out, i), xn);
      Df1Step(c, samples, out, i, yn);
      out := out + [yn];
      x1 := xn;
    }
    assert samples[|samples|..] == [];
  }

  /** one_pole_filter: y[n] = a0*x[n] - b1*y[n-1], y[-1] = 0, one output appended per input. */
  method OnePoleFilter(samples: seq<real>, a0: real, b1: real) returns (out: seq<real>)
    ensures out == Df1(OnePoleCoeffs(a0, b1), samples)
  {
    ghost var c := OnePoleCoeffs(a0, b1);
    out := [];
    var y1 := 0.0;
    Df1Start(c, samples);
    for i := 0 to |samples|
      invariant |out| == i
      invariant y1 == Past(out, i, 1)
      invariant out + Df1From(c, RegistersAfter(samples, out, i), samples[i..]) == Df1(c, samples)
    {
      var xn := samples[i];
      var yn := a0 * xn - b1 * y1;
      assert yn == Output(c, RegistersAfter(samples, out, i), xn);
      Df1Step(c, samples, out, i, yn);
      out := out + [yn];
      y1 := yn;
    }
    assert samples[|samples|..] == [];
  }

  /** simple_resonator's loop: y[i] = a0*x[i] - b1*y[i-1] - b2*y[i-2] written into a zeroed array. */
  method SimpleResonator(samples: seq<real>, a0: real, b1: real, b2: real) returns (out: seq<real>)
    ensures out == Df1(ResonatorCoeffs(a0, b1, b2), samples)
  {
    ghost var c := ResonatorCoeffs(a0, b1, b2);
    var y := new real[|samples|](_ => 0.0);
    var yz1, yz2 := 0.0, 0.0;
    Df1Start(c, samples);
    for i := 0 to |samples|
      invariant RegistersAfter(samples, y[..i], i) == Registers(Past(samples, i, 1), Past(samples, i, 2), yz1, yz2)
      invariant y[..i] + Df1From(c, RegistersAfter(samples, y[..i], i), samples[i..]) == Df1(c, samples)
    {
      ghost var done := y[..i];
      var yn := a0 * samples[i] - b1 * yz1 - b2 * yz2;
      assert yn == Output(c, Registers(Past(samples, i, 1), Past(samples, i, 2), yz1, yz2), samples[i]);
      Df1Step(c, samples, done, i, yn);
      y[i] := yn;
      assert y[..i + 1] == done + [yn];
      yz2 := yz1;
      yz1 := yn;
    }
    assert samples[|samples|..] == [];
    out := y[..];
  }

  /** The kLPF2 coefficients of second_order_lowpass, from sin and cos of the corner angle
      theta_c = 2*pi*fc/fs: a0 = a2 = alpha, a1 = 2*alpha, b1 = -2*gamma, b2 = 2*beta. The result is a
      low-pass: a double zero at Nyquist (its numerator vanishes there) and unit gain at DC. */
  function LowpassCoefficients(q: real, sinTheta: real, cosTheta: real): (c: Coeffs)
    requires q != 0.0 && 1.0 + ((1.0 / q) / 2.0) * sinTheta != 0.0
    ensures c.a1 == 2.0 * c.a0 && c.a2 == c.a0
    ensures NyquistNumerator(c) == 0.0
    ensures GainAtDc(c, 1.0)
  {
    var d := 1.0 / q;
    var betaNumerator := 1.0 - ((d / 2.0) * sinTheta);
    var betaDenominator := 1.0 + ((d / 2.0) * sinTheta);
    var beta := 0.5 * (betaNumerator / betaDenominator);
    var gamma := (0.5 + beta) * cosTheta;
    var alpha := (0.5 + beta - gamma) / 2.0;
    Coeffs(alpha, 2.0 * alpha, alpha, -2.0 * gamma, 2.0 * beta)
  }

  /** second_order_lowpass's loop: y[i] = d0*x[i] + c0*(direct-form-I terms) with d0 = 0 and c0 = 1,
      which is the plain direct-form-I recurrence with the kLPF2 coefficients. */
  method SecondOrderLowpass(samples: seq<real>, q: real, sinTheta: real, cosTheta: real) returns (out: seq<real>)
    requires q != 0.0 && 1.0 + ((1.0 / q) / 2.0) * sinTheta != 0.0
    ensures out == Df1(LowpassCoefficients(q, sinTheta, cosTheta), samples)
  {
    var k := LowpassCoefficients(q, sinTheta, cosTheta);
    var a0, a1, a2, b1, b2 := k.a0, k.a1, k.a2, k.b1, k.b2;
    var c0, d0 := 1.0, 0.0;
    var y := new real[|samples|](_ => 0.0);
    var yz1, yz2, xz1, xz2 := 0.0, 0.0, 0.0, 0.0;
    Df1Start(k, samples);
    for i := 0 to |samples|
      invariant RegistersAfter(samples, y[..i], i) == Registers(xz1, xz2, yz1, yz2)
      invariant y[..i] + Df1From(k, RegistersAfter(samples, y[..i], i), samples[i..]) == Df1(k, samples)
    {
      ghost var done := y[..i];
      var yn := d0 * samples[i] + c0 * (a0 * samples[i] + a1 * xz1 + a2 * xz2 - b1 * yz1 - b2 * yz2);
      assert yn == Output(k, Registers(xz1, xz2, yz1, yz2), samples[i]);
      Df1Step(k, samples, done, i, yn);
      y[i] := yn;
      assert y[..i + 1] == done + [yn];
      yz2 := yz1;
      yz1 := yn;
      xz2 := xz1;
      xz1 := samples[i];
    }
    assert samples[|samples|..] == [];
    out := y[..];
  }

  /** bi_quad: out[i] = x[i] + a0*x[i] + a1*x[i-1] + a2*x[i-2] - b1*y[i-1] - b2*y[i-2], from cleared
      registers, written into a zeroed array. The extra x[i] makes it the section with a0 + 1. */
  method BiQuad(signal: seq<real>, params: Coeffs) returns (out: seq<real>)
    ensures out == Df1(PassThrough(params), signal)
  {
    ghost var c := PassThrough(params);
    var y := new real[|signal|](_ => 0.0);
    var yz1, yz2, xz1, xz2 := 0.0, 0.0, 0.0, 0.0;
    Df1Start(c, signal);
    for i := 0 to |signal|
      invariant RegistersAfter(signal, y[..i], i) == Registers(xz1, xz2, yz1, yz2)
      invariant y[..i] + Df1From(c, RegistersAfter(signal, y[..i], i), signal[i..]) == Df1(c, signal)
    {
      ghost var done := y[..i];
      var yn := signal[i] + params.a0 * signal[i] + params.a1 * xz1 + params.a2 * xz2
                - params.b1 * yz1 - params.b2 * yz2;
      assert yn == Output(c, Registers(xz1, xz2, yz1, yz2), signal[i]);
      Df1Step(c, signal, done, i, yn);
      y[i] := yn;
      assert y[..i + 1] == done + [yn];
      yz2 := yz1;
      yz1 := yn;
      xz2 := xz1;
      xz1 := signal[i];
    }
    assert signal[|signal|..] == [];
    out := y[..];
  }

  /** one_zero_filter's output, sample by sample: out[0] = a0*x[0], out[i] = a0*x[i] + a1*x[i-1]. */
  lemma OneZeroAt(a0: real, a1: real, x: seq<real>, i: int)
    requires 0 <= i < |x|
    ensures Df1(OneZeroCoeffs(a0, a1), x)[i] == if i == 0 then a0 * x[0] else a0 * x[i] + a1 * x[i - 1]
  {
    Df1At(OneZeroCoeffs(a0, a1), x, i);
  }

  /** one_pole_filter's output, sample by sample: out[i] = a0*x[i] - b1*out[i-1], out[-1] = 0. */
  lemma OnePoleAt(a0: real, b1: real, x: seq<real>, i: int)
    requires 0 <= i < |x|
    ensures var y := Df1(OnePoleCoeffs(a0, b1), x);
      y[i] == if i == 0 then a0 * x[0] else a0 * x[i] - b1 * y[i - 1]
  {
    Df1At(OnePoleCoeffs(a0, b1), x, i);
  }

  /** The resonator's output, sample by sample: y[i] = a0*x[i] - b1*y[i-1] - b2*y[i-2]. */
  lemma ResonatorAt(a0: real, b1: real, b2: real, x: seq<real>, i: int)
    requires 0 <= i < |x|
    ensures var y := Df1(ResonatorCoeffs(a0, b1, b2), x);
      y[i] == a0 * x[i] - b1 * Past(y, i, 1) - b2 * Past(y, i, 2)
  {
    Df1At(ResonatorCoeffs(a0, b1, b2), x, i);
  }

  /** bi_quad's output, sample by sample, with its extra input term. */
  lemma BiQuadAt(c: Coeffs, x: seq<real>, i: int)
    requires 0 <= i < |x|
    ensures var y := Df1(PassThrough(c), x);
      y[i] == x[i] + c.a0 * x[i] + c.a1 * Past(x, i, 1) + c.a2 * Past(x, i, 2)
              - c.b1 * Past(y, i, 1) - c.b2 * Past(y, i, 2)
  {
    Df1At(PassThrough(c), x, i);
  }

  /** Because of the extra input term, bi_quad with all-zero gains copies its input. */
  lemma BiQuadZeroGainsCopy(x: seq<real>)
    ensures Df1(PassThrough(Coeffs(0.0, 0.0, 0.0, 0.0, 0.0)), x) == x
  {
    Df1Identity(PassThrough(Coeffs(0.0, 0.0, 0.0, 0.0, 0.0)), x);
  }

  // ---------------------------------------------------------------------------------------------
  // DcBlocker: y[n] = x[n] - x[n-1] + pole*y[n-1], with state kept across process calls.

  /** The pole a new or reset blocker uses. */
  const DefaultPole: real := 0.995

  /** The blocker's fields: pole, x1 (last input), y1 (last output) and the accumulated outputs. */
  datatype DcState = DcState(pole: real, x1: real, y1: real, output: seq<real>)

  /** The state of a new or reset blocker. */
  const Fresh: DcState := DcState(DefaultPole, 0.0, 0.0, [])

  /** One input sample: append y = x - x1 + pole*y1, then store x and y. */
  function DcStep(s: DcState, x: real): DcState
  {
    var y := x - s.x1 + s.pole * s.y1;
    DcState(s.pole, x, y, s.output + [y])
  }

  /** The state after processing xs sample by sample. */
  function Processed(s: DcState, xs: seq<real>): DcState
    decreases |xs|
  {
    if xs == [] then s else Processed(DcStep(s, xs[0]), xs[1..])
  }

  /** The blocker as a direct-form-I section: y = 1*x + (-1)*x1 - (-pole)*y1. */
  function DcBlockerCoeffs(pole: real): Coeffs { Coeffs(1.0, -1.0, 0.0, -pole, 0.0) }

  /** Processing in two chunks gives the same state as processing their concatenation. */
  lemma {:induction false} ProcessedConcat(s: DcState, a: seq<real>, b: seq<real>)
    ensures Processed(Processed(s, a), b) == Processed(s, a + b)
    decreases |a|
  {
    if a == [] {
      assert a + b == b;
    } else {
      assert (a + b)[0] == a[0];
      assert (a + b)[1..] == a[1..] + b;
      ProcessedConcat(DcStep(s, a[0]), a[1..], b);
    }
  }

  /** Processing keeps the pole, appends exactly one output per input to the history, and leaves
      x1 and y1 at the last input and the last output (unchanged for an empty input). */
  lemma {:induction false} ProcessedShape(s: DcState, xs: seq<real>)
    ensures var t := Processed(s, xs);
      && t.pole == s.pole
      && |t.output| == |s.output| + |xs|
      && t.output[..|s.output|] == s.output
      && t.x1 == (if xs == [] then s.x1 else xs[|xs| - 1])
      && t.y1 == (if xs == [] then s.y1 else t.output[|t.output| - 1])
    decreases |xs|
  {
    if xs != [] {
      var s' := DcStep(s, xs[0]);
      ProcessedShape(s', xs[1..]);
      var t := Processed(s', xs[1..]);
      assert t.output[..|s.output|] == t.output[..|s'.output|][..|s.output|];
      if xs[1..] == [] {
        assert xs == [xs[0]];
      } else {
        assert xs[|xs| - 1] == xs[1..][|xs[1..]| - 1];
      }
    }
  }

  /** The outputs appended by processing are the direct-form-I response of DcBlockerCoeffs(pole)
      from registers holding x1 and y1 (the second registers do not matter: their gains are 0). */
  lemma {:induction false} ProcessedIsDf1(s: DcState, xs: seq<real>, x2: real, y2: real)
    ensures Processed(s, xs).output == s.output + Df1From(DcBlockerCoeffs(s.pole), Registers(s.x1, x2, s.y1, y2), xs)
    decreases |xs|
  {
    var c := DcBlockerCoeffs(s.pole);
    var r := Registers(s.x1, x2, s.y1, y2);
    if xs != [] {
      var y := Output(c, r, xs[0]);
      assert y == xs[0] - s.x1 + s.pole * s.y1;
      var s' := DcStep(s, xs[0]);
      assert s' == DcState(s.pole, xs[0], y, s.output + [y]);
      ProcessedIsDf1(s', xs[1..], s.x1, s.y1);
      assert Shift(r, xs[0], y) == Registers(xs[0], s.x1, y, s.y1);
      assert Df1From(c, r, xs) == [y] + Df1From(c, Registers(xs[0], s.x1, y, s.y1), xs[1..]);
      assert Processed(s, xs) == Processed(s', xs[1..]);
      assert (s.output + [y]) + Df1From(c, Registers(xs[0], s.x1, y, s.y1), xs[1..])
          == s.output + ([y] + Df1From(c, Registers(xs[0], s.x1, y, s.y1), xs[1..]));
    }
  }

  /** From a new or reset state with any pole, the history obeys the blocker's recurrence sample by
      sample: out[i] = x[i] - x[i-1] + pole*out[i-1], with x[-1] = out[-1] = 0. */
  lemma DcBlockerAt(pole: real, xs: seq<real>, i: int)
    requires 0 <= i < |xs|
    ensures var out := Processed(DcState(pole, 0.0, 0.0, []), xs).output;
      |out| == |xs| && out[i] == xs[i] - Past(xs, i, 1) + pole * Past(out, i, 1)
  {
    ProcessedIsDf1(DcState(pole, 0.0, 0.0, []), xs, 0.0, 0.0);
    assert Registers(0.0, 0.0, 0.0, 0.0) == Cleared;
    Df1At(DcBlockerCoeffs(pole), xs, i);
  }

  /** The DC blocker: the default pole is 0.995; process appends to the accumulated output history
      and returns the whole history. */
  class DcBlocker {
    var pole: real
    var x1: real
    var y1: real
    var outputSignal: seq<real>

    /** The blocker's fields as a value. */
    function State(): DcState
      reads this
    {
      DcState(pole, x1, y1, outputSignal)
    }

    constructor ()
      ensures State() == Fresh
    {
      pole := DefaultPole;
      x1 := 0.0;
      y1 := 0.0;
      outputSignal := [];
    }

    /** Restores the pole as well as the registers and empties the history. */
    method Reset()
      modifies this
      ensures State() == Fresh
    {
      pole := DefaultPole;
      x1 := 0.0;
      y1 := 0.0;
      outputSignal := [];
    }

    /** Changes the pole and nothing else. */
    method SetPole(p: real)
      modifies this`pole
      ensures State() == old(State()).(pole := p)
    {
      pole := p;
    }

    /** Runs the recurrence over the input, appending one output per sample, and returns the
        whole accumulated history. */
    method Process(inputSignal: seq<real>) returns (history: seq<real>)
      modifies this
      ensures State() == Processed(old(State()), inputSignal)
      ensures history == outputSignal
    {
      for i := 0 to |inputSignal|
        invariant Processed(State(), inputSignal[i..]) == Processed(old(State()), inputSignal)
      {
        assert inputSignal[i..][1..] == inputSignal[i + 1..];
        var x := inputSignal[i];
        var y := x - x1 + pole * y1;
        outputSignal := outputSignal + [y];
        x1 := x;
        y1 := y;
      }
      assert inputSignal[|inputSignal|..] == [];
      history := outputSignal;
    }
  }

  /** Two new blockers, one fed s1 then s2 and one fed s1 + s2, end in the same state and return
      the same history. */
  method ChunkedMatchesWhole(s1: seq<real>, s2: seq<real>) returns (chunked: DcState, whole: DcState)
    ensures chunked == whole
    ensures whole == Processed(Fresh, s1 + s2)
  {
    var d := new DcBlocker();
    var h1 := d.Process(s1);
    var h2 := d.Process(s2);
    chunked := d.State();
    var e := new DcBlocker();
    var h := e.Process(s1 + s2);
    whole := e.State();
    ProcessedConcat(Fresh, s1, s2);
  }
}
