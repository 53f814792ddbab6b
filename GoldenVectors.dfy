/**
 * The exact golden outputs python/test_dsp_filters_wp.py asserts for the two
 * first-order filters with gains 0.5 and 0.5 on the 8-sample test inputs. Each
 * lemma checks the expected list sample by sample against the recurrence and
 * concludes, by the characterization of Df1, that it is the filter's output;
 * the Test methods run the filter loops themselves on the inputs.
 */
module GoldenVectors {
  import opened DirectForm
  import opened Filters
  import opened WpInputs

  /** Eight samples that each obey the recurrence are the filter's output. */
  lemma EightSamples(c: Coeffs, x: seq<real>, y: seq<real>)
    requires |x| == |y| == 8
    requires RecurrenceAt(c, x, y, 0) && RecurrenceAt(c, x, y, 1) && RecurrenceAt(c, x, y, 2) && RecurrenceAt(c, x, y, 3)
    requires RecurrenceAt(c, x, y, 4) && RecurrenceAt(c, x, y, 5) && RecurrenceAt(c, x, y, 6) && RecurrenceAt(c, x, y, 7)
    ensures Df1(c, x) == y
  {
    assert SatisfiesDf1(c, x, y);
    Df1Characterized(c, x, y);
  }

  /** one_zero_filter(dc, 0.5, 0.5). */
  lemma OneZeroDc(c: Coeffs, x: seq<real>)
    requires c == OneZeroCoeffs(0.5, 0.5) && x == Dc
    ensures Df1(c, x) == [0.0, 0.5, 1.0, 1.0, 1.0, 1.0, 1.0, 1.0]
  {
    var y := [0.0, 0.5, 1.0, 1.0, 1.0, 1.0, 1.0, 1.0];
    assert RecurrenceAt(c, x, y, 0) && RecurrenceAt(c, x, y, 1) && RecurrenceAt(c, x, y, 2) && RecurrenceAt(c, x, y, 3);
    assert RecurrenceAt(c, x, y, 4) && RecurrenceAt(c, x, y, 5) && RecurrenceAt(c, x, y, 6) && RecurrenceAt(c, x, y, 7);
    EightSamples(c, x, y);
  }

  /** one_zero_filter(nyquist, 0.5, 0.5). */
  lemma OneZeroNyquist(c: Coeffs, x: seq<real>)
    requires c == OneZeroCoeffs(0.5, 0.5) && x == Nyquist
    ensures Df1(c, x) == [-0.5, 0.0, 0.0, 0.0, 0.0, 0.0, 0.0, 0.0]
  {
    var y := [-0.5, 0.0, 0.0, 0.0, 0.0, 0.0, 0.0, 0.0];
    assert RecurrenceAt(c, x, y, 0) && RecurrenceAt(c, x, y, 1) && RecurrenceAt(c, x, y, 2) && RecurrenceAt(c, x, y, 3);
    assert RecurrenceAt(c, x, y, 4) && RecurrenceAt(c, x, y, 5) && RecurrenceAt(c, x, y, 6) && RecurrenceAt(c, x, y, 7);
    EightSamples(c, x, y);
  }

  /** one_zero_filter(halfNyquist, 0.5, 0.5). */
  lemma OneZeroHalfNyquist(c: Coeffs, x: seq<real>)
    requires c == OneZeroCoeffs(0.5, 0.5) && x == HalfNyquist
    ensures Df1(c, x) == [0.0, 0.5, 0.5, -0.5, -0.5, 0.5, 0.5, -0.5]
  {
    var y := [0.0, 0.5, 0.5, -0.5, -0.5, 0.5, 0.5, -0.5];
    assert RecurrenceAt(c, x, y, 0) && RecurrenceAt(c, x, y, 1) && RecurrenceAt(c, x, y, 2) && RecurrenceAt(c, x, y, 3);
    assert RecurrenceAt(c, x, y, 4) && RecurrenceAt(c, x, y, 5) && RecurrenceAt(c, x, y, 6) && RecurrenceAt(c, x, y, 7);
    EightSamples(c, x, y);
  }

  /** one_zero_filter(impulse, 0.5, 0.5). */
  lemma OneZeroImpulse(c: Coeffs, x: seq<real>)
    requires c == OneZeroCoeffs(0.5, 0.5) && x == Impulse
    ensures Df1(c, x) == [0.0, 0.5, 0.5, 0.0, 0.0, 0.0, 0.0, 0.0]
  {
    var y := [0.0, 0.5, 0.5, 0.0, 0.0, 0.0, 0.0, 0.0];
    assert RecurrenceAt(c, x, y, 0) && RecurrenceAt(c, x, y, 1) && RecurrenceAt(c, x, y, 2) && RecurrenceAt(c, x, y, 3);
    assert RecurrenceAt(c, x, y, 4) && RecurrenceAt(c, x, y, 5) && RecurrenceAt(c, x, y, 6) && RecurrenceAt(c, x, y, 7);
    EightSamples(c, x, y);
  }

  /** one_pole_filter(dc, 0.5, 0.5). */
  lemma OnePoleDc(c: Coeffs, x: seq<real>)
    requires c == OnePoleCoeffs(0.5, 0.5) && x == Dc
    ensures Df1(c, x) == [0.0, 0.5, 0.25, 0.375, 0.3125, 0.34375, 0.328125, 0.3359375]
  {
    var y := [0.0, 0.5, 0.25, 0.375, 0.3125, 0.34375, 0.328125, 0.3359375];
    assert RecurrenceAt(c, x, y, 0) && RecurrenceAt(c, x, y, 1) && RecurrenceAt(c, x, y, 2) && RecurrenceAt(c, x, y, 3);
    assert RecurrenceAt(c, x, y, 4) && RecurrenceAt(c, x, y, 5) && RecurrenceAt(c, x, y, 6) && RecurrenceAt(c, x, y, 7);
    EightSamples(c, x, y);
  }

  /** one_pole_filter(nyquist, 0.5, 0.5). */
  lemma OnePoleNyquist(c: Coeffs, x: seq<real>)
    requires c == OnePoleCoeffs(0.5, 0.5) && x == Nyquist
    ensures Df1(c, x) == [-0.5, 0.75, -0.875, 0.9375, -0.96875, 0.984375, -0.9921875, 0.99609375]
  {
    var y := [-0.5, 0.75, -0.875, 0.9375, -0.96875, 0.984375, -0.9921875, 0.99609375];
    assert RecurrenceAt(c, x, y, 0) && RecurrenceAt(c, x, y, 1) && RecurrenceAt(c, x, y, 2) && RecurrenceAt(c, x, y, 3);
    assert RecurrenceAt(c, x, y, 4) && RecurrenceAt(c, x, y, 5) && RecurrenceAt(c, x, y, 6) && RecurrenceAt(c, x, y, 7);
    EightSamples(c, x, y);
  }

  /** one_pole_filter(halfNyquist, 0.5, 0.5). */
  lemma OnePoleHalfNyquist(c: Coeffs, x: seq<real>)
    requires c == OnePoleCoeffs(0.5, 0.5) && x == HalfNyquist
    ensures Df1(c, x) == [0.0, 0.5, -0.25, -0.375, 0.1875, 0.40625, -0.203125, -0.3984375]
  {
    var y := [0.0, 0.5, -0.25, -0.375, 0.1875, 0.40625, -0.203125, -0.3984375];
    assert RecurrenceAt(c, x, y, 0) && RecurrenceAt(c, x, y, 1) && RecurrenceAt(c, x, y, 2) && RecurrenceAt(c, x, y, 3);
    assert RecurrenceAt(c, x, y, 4) && RecurrenceAt(c, x, y, 5) && RecurrenceAt(c, x, y, 6) && RecurrenceAt(c, x, y, 7);
    EightSamples(c, x, y);
  }

  /** one_pole_filter(impulse, 0.5, 0.5). */
  lemma OnePoleImpulse(c: Coeffs, x: seq<real>)
    requires c == OnePoleCoeffs(0.5, 0.5) && x == Impulse
    ensures Df1(c, x) == [0.0, 0.5, -0.25, 0.125, -0.0625, 0.03125, -0.015625, 0.0078125]
  {
    var y := [0.0, 0.5, -0.25, 0.125, -0.0625, 0.03125, -0.015625, 0.0078125];
    assert RecurrenceAt(c, x, y, 0) && RecurrenceAt(c, x, y, 1) && RecurrenceAt(c, x, y, 2) && RecurrenceAt(c, x, y, 3);
    assert RecurrenceAt(c, x, y, 4) && RecurrenceAt(c, x, y, 5) && RecurrenceAt(c, x, y, 6) && RecurrenceAt(c, x, y, 7);
    EightSamples(c, x, y);
  }


  /** test_ff_dc: the loop itself run on dc. */
  method TestOneZeroDc() returns (res: seq<real>)
    ensures res == [0.0, 0.5, 1.0, 1.0, 1.0, 1.0, 1.0, 1.0]
  {
    OneZeroDc(OneZeroCoeffs(0.5, 0.5), Dc);
    res := OneZeroFilter(Dc, 0.5, 0.5);
  }

  /** test_ff_nyquist: the loop itself run on nyquist. */
  method TestOneZeroNyquist() returns (res: seq<real>)
    ensures res == [-0.5, 0.0, 0.0, 0.0, 0.0, 0.0, 0.0, 0.0]
  {
    OneZeroNyquist(OneZeroCoeffs(0.5, 0.5), Nyquist);
    res := OneZeroFilter(Nyquist, 0.5, 0.5);
  }

  /** test_ff_half_nyquist: the loop itself run on halfNyquist. */
  method TestOneZeroHalfNyquist() returns (res: seq<real>)
    ensures res == [0.0, 0.5, 0.5, -0.5, -0.5, 0.5, 0.5, -0.5]
  {
    OneZeroHalfNyquist(OneZeroCoeffs(0.5, 0.5), HalfNyquist);
    res := OneZeroFilter(HalfNyquist, 0.5, 0.5);
  }

  /** test_ff_impulse: the loop itself run on impulse. */
  method TestOneZeroImpulse() returns (res: seq<real>)
    ensures res == [0.0, 0.5, 0.5, 0.0, 0.0, 0.0, 0.0, 0.0]
  {
    OneZeroImpulse(OneZeroCoeffs(0.5, 0.5), Impulse);
    res := OneZeroFilter(Impulse, 0.5, 0.5);
  }

  /** test_fb_dc: the loop itself run on dc. */
  method TestOnePoleDc() returns (res: seq<real>)
    ensures res == [0.0, 0.5, 0.25, 0.375, 0.3125, 0.34375, 0.328125, 0.3359375]
  {
    OnePoleDc(OnePoleCoeffs(0.5, 0.5), Dc);
    res := OnePoleFilter(Dc, 0.5, 0.5);
  }

  /** test_fb_nyquist: the loop itself run on nyquist. */
  method TestOnePoleNyquist() returns (res: seq<real>)
    ensures res == [-0.5, 0.75, -0.875, 0.9375, -0.96875, 0.984375, -0.9921875, 0.99609375]
  {
    OnePoleNyquist(OnePoleCoeffs(0.5, 0.5), Nyquist);
    res := OnePoleFilter(Nyquist, 0.5, 0.5);
  }

  /** test_fb_half_nyquist: the loop itself run on halfNyquist. */
  method TestOnePoleHalfNyquist() returns (res: seq<real>)
    ensures res == [0.0, 0.5, -0.25, -0.375, 0.1875, 0.40625, -0.203125, -0.3984375]
  {
    OnePoleHalfNyquist(OnePoleCoeffs(0.5, 0.5), HalfNyquist);
    res := OnePoleFilter(HalfNyquist, 0.5, 0.5);
  }

  /** test_fb_impulse: the loop itself run on impulse. */
  method TestOnePoleImpulse() returns (res: seq<real>)
    ensures res == [0.0, 0.5, -0.25, 0.125, -0.0625, 0.03125, -0.015625, 0.0078125]
  {
    OnePoleImpulse(OnePoleCoeffs(0.5, 0.5), Impulse);
    res := OnePoleFilter(Impulse, 0.5, 0.5);
  }
}
