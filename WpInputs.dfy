/**
 * The test inputs of python/inpt_wp_inputs.py: five 8-sample constant
 * signals and five generators of 500-sample test signals. The predicates
 * IsNyq .. IsStep say, index by index, what each 500-sample signal is. The
 * generators of python/util_signals.py and python/util_functions.py are the
 * same code, so these methods model them as well.
 */
module WpInputs {

  /** A step that starts after the first sample. */
  const Dc: seq<real> := [0.0, 1.0, 1.0, 1.0, 1.0, 1.0, 1.0, 1.0]
  /** Alternating -1, +1, starting at -1. */
  const Nyquist: seq<real> := [-1.0, 1.0, -1.0, 1.0, -1.0, 1.0, -1.0, 1.0]
  /** Two periods of 0, 1, 0, -1. */
  const HalfNyquist: seq<real> := [0.0, 1.0, 0.0, -1.0, 0.0, 1.0, 0.0, -1.0]
  /** One period of a sine sampled 8 times, 0.707 standing for sin(pi/4). */
  const QuarterNyquist: seq<real> := [0.0, 0.707, 1.0, 0.707, 0.0, -0.707, -1.0, -0.707]
  /** A unit impulse at index 1. */
  const Impulse: seq<real> := [0.0, 1.0, 0.0, 0.0, 0.0, 0.0, 0.0, 0.0]

  /** The length of every generated test signal. */
  const SignalLength: nat := 500

  const HalfNyquistPeriod: seq<real> := [0.0, 1.0, 0.0, -1.0]
  const QuarterNyquistPeriod: seq<real> := [0.0, 0.707, 1.0, 0.707, 0.0, -0.707, -1.0, -0.707]

  /** 500 samples, +1 at even and -1 at odd indices. */
  ghost predicate IsNyq(s: seq<real>)
  {
    |s| == SignalLength && forall i :: 0 <= i < |s| ==> s[i] == if i % 2 == 0 then 1.0 else -1.0
  }

  /** 500 samples repeating 0, 1, 0, -1. */
  ghost predicate IsHalfNyq(s: seq<real>)
  {
    |s| == SignalLength && forall i :: 0 <= i < |s| ==> s[i] == HalfNyquistPeriod[i % 4]
  }

  /** 500 samples repeating the 8-sample quarter-Nyquist period (62 periods and the first half of one more). */
  ghost predicate IsQtrNyq(s: seq<real>)
  {
    |s| == SignalLength && forall i :: 0 <= i < |s| ==> s[i] == QuarterNyquistPeriod[i % 8]
  }

  /** 500 samples, all 0 except a 1 at index 1. */
  ghost predicate IsImpls(s: seq<real>)
  {
    |s| == SignalLength && forall i :: 0 <= i < |s| ==> s[i] == if i == 1 then 1.0 else 0.0
  }

  /** 500 samples, all 1 except a 0 at index 0. */
  ghost predicate IsStep(s: seq<real>)
  {
    |s| == SignalLength && forall i :: 0 <= i < |s| ==> s[i] == if i == 0 then 0.0 else 1.0
  }

  /** The constants are 8 samples long; the impulse has its 1 at index 1 and the dc input is 0 at
      index 0 and 1 from then on. */
  lemma ConstantShapes()
    ensures |Dc| == |Nyquist| == |HalfNyquist| == |QuarterNyquist| == |Impulse| == 8
    ensures forall i :: 0 <= i < 8 ==> Impulse[i] == if i == 1 then 1.0 else 0.0
    ensures forall i :: 0 <= i < 8 ==> Dc[i] == if i == 0 then 0.0 else 1.0
    ensures forall i :: 0 <= i < 8 ==> Nyquist[i] == if i % 2 == 0 then -1.0 else 1.0
  {
  }

  /** The first 8 samples of the generated signals are the constants; nyq() has the phase
      opposite to the Nyquist constant. */
  lemma GeneratedPrefixes(nyq: seq<real>, half: seq<real>, qtr: seq<real>, impls: seq<real>, step: seq<real>)
    requires IsNyq(nyq) && IsHalfNyq(half) && IsQtrNyq(qtr) && IsImpls(impls) && IsStep(step)
    ensures forall i :: 0 <= i < 8 ==> nyq[i] == -Nyquist[i]
    ensures half[..8] == HalfNyquist
    ensures qtr[..8] == QuarterNyquist
    ensures impls[..8] == Impulse
    ensures step[..8] == Dc
  {
    assert forall i :: 0 <= i < 8 ==> i % 4 == (if i < 4 then i else i - 4);
    assert forall i :: 0 <= i < 8 ==> i % 8 == i;
  }

  /** nyq(): np.ones(500) * -1, then every even-indexed sample multiplied by -1 in place. */
  method Nyq() returns (res: seq<real>)
    ensures IsNyq(res)
  {
    var a := new real[SignalLength](_ => -1.0);
    var i := 0;
    while i < a.Length
      invariant 0 <= i <= a.Length && i % 2 == 0
      invariant forall j :: 0 <= j < a.Length ==> a[j] == if j < i && j % 2 == 0 then 1.0 else -1.0
    {
      a[i] := a[i] * -1.0;
      i := i + 2;
    }
    res := a[..];
  }

  /** half_nyq(): 125 rounds appending 0, 1, 0, -1. */
  method HalfNyq() returns (res: seq<real>)
    ensures IsHalfNyq(res)
  {
    res := [];
    for n := 0 to 125
      invariant |res| == 4 * n
      invariant forall j :: 0 <= j < |res| ==> res[j] == HalfNyquistPeriod[j % 4]
    {
      ghost var before := res;
      res := res + [0.0];
      res := res + [1.0];
      res := res + [0.0];
      res := res + [-1.0];
      assert res == before + HalfNyquistPeriod;
      PeriodicAppend(before, HalfNyquistPeriod, n);
    }
  }

  /** qtr_nyq(): 62 rounds appending the 8-sample period, then its first 4 samples. */
  method QtrNyq() returns (res: seq<real>)
    ensures IsQtrNyq(res)
  {
    res := [];
    for n := 0 to 62
      invariant |res| == 8 * n
      invariant forall j :: 0 <= j < |res| ==> res[j] == QuarterNyquistPeriod[j % 8]
    {
      ghost var before := res;
      res := res + [0.0];
      res := res + [0.707];
      res := res + [1.0];
      res := res + [0.707];
      res := res + [0.0];
      res := res + [-0.707];
      res := res + [-1.0];
      res := res + [-0.707];
      assert res == before + QuarterNyquistPeriod;
      PeriodicAppend(before, QuarterNyquistPeriod, n);
    }
    // 62 * 8 = 496: four more samples make 500
    ghost var periods := res;
    res := res + [0.0];
    res := res + [0.707];
    res := res + [1.0];
    res := res + [0.707];
    assert res == periods + QuarterNyquistPeriod[..4];
    PeriodicTail(periods, QuarterNyquistPeriod, 62, 4);
  }

  /** impls(): np.zeros(500), then a 1 written at index 1. */
  method Impls() returns (res: seq<real>)
    ensures IsImpls(res)
  {
    var a := new real[SignalLength](_ => 0.0);
    a[1] := 1.0;
    res := a[..];
  }

  /** step(): np.ones(500), then a 0 written at index 0. */
  method Step() returns (res: seq<real>)
    ensures IsStep(res)
  {
    var a := new real[SignalLength](_ => 1.0);
    a[0] := 0.0;
    res := a[..];
  }

  /** Appending one whole period p to n periods keeps the signal periodic. */
  lemma PeriodicAppend(s: seq<real>, p: seq<real>, n: nat)
    requires (|p| == 4 || |p| == 8) && |s| == |p| * n
    requires forall j :: 0 <= j < |s| ==> s[j] == p[j % |p|]
    ensures forall j :: 0 <= j < |s| + |p| ==> (s + p)[j] == p[j % |p|]
  {
    forall j | |s| <= j < |s| + |p|
      ensures (s + p)[j] == p[j % |p|]
    {
      ModShift(j - |s|, |p|, n);
    }
  }

  /** Appending the first m samples of the period likewise. */
  lemma PeriodicTail(s: seq<real>, p: seq<real>, n: nat, m: nat)
    requires (|p| == 4 || |p| == 8) && m <= |p| && |s| == |p| * n
    requires forall j :: 0 <= j < |s| ==> s[j] == p[j % |p|]
    ensures forall j :: 0 <= j < |s| + m ==> (s + p[..m])[j] == p[j % |p|]
  {
    forall j | |s| <= j < |s| + m
      ensures (s + p[..m])[j] == p[j % |p|]
    {
      ModShift(j - |s|, |p|, n);
    }
  }

  /** Position r of the (n+1)-th period is position r of the period (for the two periods used here). */
  lemma ModShift(r: int, d: int, n: nat)
    requires d == 4 || d == 8
    requires 0 <= r < d
    ensures (d * n + r) % d == r
  {
    if d == 4 {
      assert (4 * n + r) % 4 == r;
    } else {
      assert (8 * n + r) % 8 == r;
    }
  }
}
