/**
 * bi_quad_coeffs of python/util_functions.py: the coefficients [a0, a1, a2, b1, b2] of fifteen
 * filter kinds, for the recurrence y = a0*x + a1*x1 + a2*x2 - b1*y1 - b2*y2.
 *
 * The transcendental prelude is an argument: k = tan(pi*fc/fs), v = 10^(|peak_gain|/20),
 * sqrt_v = 2^v, and the exponentials exp(-2*pi*fc/fs) and exp(-2*pi*(0.5 - fc/fs)) of kinds 1
 * and 2. The constant sqrt_two of the shelving kinds is 2**2 = 4, and BiQuadCoeffs uses that
 * value. Design takes it as a parameter so that the intended value, the square root of 2, can
 * be examined as well.
 */
module BiquadDesign {
  import opened DirectForm

  /** The section divides the DC gain by g: H(1) * g == 1, stated without dividing. */
  predicate CutAtDc(c: Coeffs, g: real) { g * DcNumerator(c) == DcDenominator(c) }

  /** The section divides the Nyquist gain by g. */
  predicate CutAtNyquist(c: Coeffs, g: real) { g * NyquistNumerator(c) == NyquistDenominator(c) }

  /** The values computed before the branch on the kind. */
  datatype Prelude = Prelude(k: real, v: real, sqrtV: real, lowDecay: real, highDecay: real)

  /** A coefficient list, or the KeyError raised by the kind_dict lookup for an unknown kind. */
  datatype Result<T> = Ok(value: T) | KeyError(kind: int)

  /** sqrt_two as the source computes it: 2 ** 2. */
  const SqrtTwo: real := 4.0

  /** The kinds whose second-order denominator is 1 + k/q + k*k: LP, HP, BP, notch, allpass. */
  predicate SharedPoles(kind: int)
  {
    kind == 5 || kind == 6 || kind == 7 || kind == 8 || kind == 14
  }

  /** Every `norm` (and the kind-15 quotient) the kind's branch computes has a nonzero divisor. */
  predicate Defined(kind: int, p: Prelude, sqrtTwo: real, q: real, peakGain: real)
  {
    if kind == 3 then p.k != 0.0 && 1.0 / p.k + 1.0 != 0.0
    else if kind == 4 then p.k + 1.0 != 0.0
    else if SharedPoles(kind) then SharedPolesDefined(p.k, q)
    else if kind == 9 then PeakDefined(p.k, p.v, q, peakGain >= 0.0)
    else if kind == 10 then LowShelfDefined(p.k, p.v, p.sqrtV, sqrtTwo, peakGain >= 0.0)
    else if kind == 11 then HighShelfDefined(p.k, p.v, p.sqrtV, sqrtTwo, peakGain >= 0.0)
    else if kind == 12 then LowShelf1stDefined(p.k, p.v, peakGain >= 0.0)
    else if kind == 13 then HighShelf1stDefined(p.k, p.v, peakGain >= 0.0)
    else if kind == 15 then 1.0 + p.k != 0.0
    else true
  }

  predicate SharedPolesDefined(k: real, q: real)
  {
    q != 0.0 && 1.0 + k / q + k * k != 0.0
  }

  predicate PeakDefined(k: real, v: real, q: real, boost: bool)
  {
    q != 0.0 && if boost then 1.0 + 1.0 / q * k + k * k != 0.0 else 1.0 + v / q * k + k * k != 0.0
  }

  predicate LowShelfDefined(k: real, v: real, sv: real, sqrtTwo: real, boost: bool)
  {
    if boost then 1.0 + sqrtTwo * k + k * k != 0.0 else 1.0 + sv * k + v * k * k != 0.0
  }

  predicate HighShelfDefined(k: real, v: real, sv: real, sqrtTwo: real, boost: bool)
  {
    if boost then 1.0 + sqrtTwo * k + k * k != 0.0 else v + sv * k + k * k != 0.0
  }

  predicate LowShelf1stDefined(k: real, v: real, boost: bool)
  {
    if boost then k + 1.0 != 0.0 else k * v + 1.0 != 0.0
  }

  predicate HighShelf1stDefined(k: real, v: real, boost: bool)
  {
    if boost then k + 1.0 != 0.0 else k + v != 0.0
  }

  /** Kind 1, one pole LP: b1 = exp(-2*pi*fc/fs), a0 = 1 - b1, then b1 negated. */
  function OnePoleLowpass(decay: real): Coeffs
  {
    var b1 := decay;
    Coeffs(1.0 - b1, 0.0, 0.0, -b1, 0.0)
  }

  /** Kind 2, one pole HP: b1 = -exp(-2*pi*(0.5 - fc/fs)), a0 = 1 + b1, then b1 negated. */
  function OnePoleHighpass(decay: real): Coeffs
  {
    var b1 := -decay;
    Coeffs(1.0 + b1, 0.0, 0.0, -b1, 0.0)
  }

  /** Kind 3, lowpass 1p1z. */
  function Lowpass1p1z(k: real): Coeffs
    requires k != 0.0 && 1.0 / k + 1.0 != 0.0
  {
    var norm := 1.0 / (1.0 / k + 1.0);
    Coeffs(norm, norm, 0.0, (1.0 - 1.0 / k) * norm, 0.0)
  }

  /** Kind 4, highpass 1p1z. */
  function Highpass1p1z(k: real): Coeffs
    requires k + 1.0 != 0.0
  {
    var norm := 1.0 / (k + 1.0);
    Coeffs(norm, -norm, 0.0, (k - 1.0) * norm, 0.0)
  }

  /** Kind 5, LP. */
  function Lowpass(k: real, q: real): Coeffs
    requires SharedPolesDefined(k, q)
  {
    var norm := 1.0 / (1.0 + k / q + k * k);
    var a0 := k * k * norm;
    Coeffs(a0, 2.0 * a0, a0, 2.0 * (k * k - 1.0) * norm, (1.0 - k / q + k * k) * norm)
  }

  /** Kind 6, HP. */
  function Highpass(k: real, q: real): Coeffs
    requires SharedPolesDefined(k, q)
  {
    var norm := 1.0 / (1.0 + k / q + k * k);
    var a0 := 1.0 * norm;
    Coeffs(a0, -2.0 * a0, a0, 2.0 * (k * k - 1.0) * norm, (1.0 - k / q + k * k) * norm)
  }

  /** Kind 7, BP. */
  function Bandpass(k: real, q: real): Coeffs
    requires SharedPolesDefined(k, q)
  {
    var norm := 1.0 / (1.0 + k / q + k * k);
    var a0 := k / q * norm;
    Coeffs(a0, 0.0, -a0, 2.0 * (k * k - 1.0) * norm, (1.0 - k / q + k * k) * norm)
  }

  /** Kind 8, notch. */
  function Notch(k: real, q: real): Coeffs
    requires SharedPolesDefined(k, q)
  {
    var norm := 1.0 / (1.0 + k / q + k * k);
    var a0 := (1.0 + k * k) * norm;
    var a1 := 2.0 * (k * k - 1.0) * norm;
    Coeffs(a0, a1, a0, a1, (1.0 - k / q + k * k) * norm)
  }

  /** Kind 9, peak. The boost branch (peak_gain >= 0) divides by 1 + 1/q k + k*k, the cut branch
      by 1 + v/q k + k*k, and a1 = b1 = 2(k*k - 1)*norm in both. */
  function Peak(k: real, v: real, q: real, boost: bool): Coeffs
    requires PeakDefined(k, v, q, boost)
  {
    if boost then
      Normalise(1.0 + v / q * k + k * k, 2.0 * (k * k - 1.0), 1.0 - v / q * k + k * k,
                1.0 + 1.0 / q * k + k * k, 2.0 * (k * k - 1.0), 1.0 - 1.0 / q * k + k * k)
    else
      Normalise(1.0 + 1.0 / q * k + k * k, 2.0 * (k * k - 1.0), 1.0 - 1.0 / q * k + k * k,
                1.0 + v / q * k + k * k, 2.0 * (k * k - 1.0), 1.0 - v / q * k + k * k)
  }

  /** Kind 10, low_shelf, with sv = sqrt_v: the boost branch divides by 1 + sqrt_two k + k*k,
      the cut branch by 1 + sv k + v k*k, the leading term of the other polynomial. */
  function LowShelf(k: real, v: real, sv: real, sqrtTwo: real, boost: bool): Coeffs
    requires LowShelfDefined(k, v, sv, sqrtTwo, boost)
  {
    if boost then
      Normalise(1.0 + sv * k + v * k * k, 2.0 * (v * k * k - 1.0), 1.0 - sv * k + v * k * k,
                1.0 + sqrtTwo * k + k * k, 2.0 * (k * k - 1.0), 1.0 - sqrtTwo * k + k * k)
    else
      Normalise(1.0 + sqrtTwo * k + k * k, 2.0 * (k * k - 1.0), 1.0 - sqrtTwo * k + k * k,
                1.0 + sv * k + v * k * k, 2.0 * (v * k * k - 1.0), 1.0 - sv * k + v * k * k)
  }

  /** Kind 11, high_shelf: boost divides by 1 + sqrt_two k + k*k, cut by v + sv k + k*k. */
  function HighShelf(k: real, v: real, sv: real, sqrtTwo: real, boost: bool): Coeffs
    requires HighShelfDefined(k, v, sv, sqrtTwo, boost)
  {
    if boost then
      Normalise(v + sv * k + k * k, 2.0 * (k * k - v), v - sv * k + k * k,
                1.0 + sqrtTwo * k + k * k, 2.0 * (k * k - 1.0), 1.0 - sqrtTwo * k + k * k)
    else
      Normalise(1.0 + sqrtTwo * k + k * k, 2.0 * (k * k - 1.0), 1.0 - sqrtTwo * k + k * k,
                v + sv * k + k * k, 2.0 * (k * k - v), v - sv * k + k * k)
  }

  /** Kind 12, low_shelf 1st: boost divides by k + 1, cut by k v + 1. */
  function LowShelf1st(k: real, v: real, boost: bool): Coeffs
    requires LowShelf1stDefined(k, v, boost)
  {
    if boost then Normalise(k * v + 1.0, k * v - 1.0, 0.0, k + 1.0, k - 1.0, 0.0)
    else Normalise(k + 1.0, k - 1.0, 0.0, k * v + 1.0, k * v - 1.0, 0.0)
  }

  /** Kind 13, high_shelf 1st: boost divides by k + 1, cut by k + v. */
  function HighShelf1st(k: real, v: real, boost: bool): Coeffs
    requires HighShelf1stDefined(k, v, boost)
  {
    if boost then Normalise(k + v, k - v, 0.0, k + 1.0, k - 1.0, 0.0)
    else Normalise(k + 1.0, k - 1.0, 0.0, k + v, k - v, 0.0)
  }

  /** Kind 14, allpass: a2 is the literal 1 and b2 = a0. */
  function Allpass(k: real, q: real): Coeffs
    requires SharedPolesDefined(k, q)
  {
    var norm := 1.0 / (1.0 + k / q + k * k);
    var a0 := (1.0 - k / q + k * k) * norm;
    var a1 := 2.0 * (k * k - 1.0) * norm;
    Coeffs(a0, a1, 1.0, a1, a0)
  }

  /** Kind 15, allpass 1st. */
  function Allpass1st(k: real): Coeffs
    requires 1.0 + k != 0.0
  {
    var a0 := (1.0 - k) / (1.0 + k);
    Coeffs(a0, -1.0, 0.0, -a0, 0.0)
  }

  /** The branch per kind, with the shelving constant sqrt_two as a parameter; a kind outside
      1..15 takes no branch and keeps the initial zeros. */
  function Design(kind: int, p: Prelude, sqrtTwo: real, q: real, peakGain: real): (c: Coeffs)
    requires Defined(kind, p, sqrtTwo, q, peakGain)
    ensures !(1 <= kind <= 15) ==> c == Coeffs(0.0, 0.0, 0.0, 0.0, 0.0)
  {
    if kind == 1 then OnePoleLowpass(p.lowDecay)
    else if kind == 2 then OnePoleHighpass(p.highDecay)
    else if kind == 3 then Lowpass1p1z(p.k)
    else if kind == 4 then Highpass1p1z(p.k)
    else if kind == 5 then Lowpass(p.k, q)
    else if kind == 6 then Highpass(p.k, q)
    else if kind == 7 then Bandpass(p.k, q)
    else if kind == 8 then Notch(p.k, q)
    else if kind == 9 then Peak(p.k, p.v, q, peakGain >= 0.0)
    else if kind == 10 then LowShelf(p.k, p.v, p.sqrtV, sqrtTwo, peakGain >= 0.0)
    else if kind == 11 then HighShelf(p.k, p.v, p.sqrtV, sqrtTwo, peakGain >= 0.0)
    else if kind == 12 then LowShelf1st(p.k, p.v, peakGain >= 0.0)
    else if kind == 13 then HighShelf1st(p.k, p.v, peakGain >= 0.0)
    else if kind == 14 then Allpass(p.k, q)
    else if kind == 15 then Allpass1st(p.k)
    else Coeffs(0.0, 0.0, 0.0, 0.0, 0.0)
  }

  /** bi_quad_coeffs: the coefficients of a kind in 1..15, and a KeyError naming any other kind. */
  function BiQuadCoeffs(kind: int, p: Prelude, q: real, peakGain: real): (r: Result<Coeffs>)
    requires Defined(kind, p, SqrtTwo, q, peakGain)
    ensures r.Ok? <==> 1 <= kind <= 15
    ensures r.KeyError? ==> r.kind == kind
  {
    var c := Design(kind, p, SqrtTwo, q, peakGain);
    if 1 <= kind <= 15 then Ok(c) else KeyError(kind)
  }

  // ---------------------------------------------------------------------------------------------
  // Structural relations between the coefficients of one kind.

  /** Kinds 5 to 8 and 14 share the poles b1 = 2(k*k - 1)*norm, b2 = (1 - k/q + k*k)*norm, and
      their numerators are LP: (a0, 2a0, a0); HP: (a0, -2a0, a0); BP: (a0, 0, -a0);
      notch: a2 = a0 and b1 = a1; allpass: (b2, b1, 1). */
  lemma SharedPoleShapes(p: Prelude, q: real, peakGain: real)
    requires Defined(5, p, SqrtTwo, q, peakGain)
    ensures var lp, hp, bp, notch, ap :=
      BiQuadCoeffs(5, p, q, peakGain).value, BiQuadCoeffs(6, p, q, peakGain).value,
      BiQuadCoeffs(7, p, q, peakGain).value, BiQuadCoeffs(8, p, q, peakGain).value,
      BiQuadCoeffs(14, p, q, peakGain).value;
      && lp.a1 == 2.0 * lp.a0 && lp.a2 == lp.a0
      && hp.a1 == -2.0 * hp.a0 && hp.a2 == hp.a0
      && bp.a1 == 0.0 && bp.a2 == -bp.a0
      && notch.a2 == notch.a0 && notch.b1 == notch.a1
      && ap.a2 == 1.0 && ap.b1 == ap.a1 && ap.b2 == ap.a0
      && lp.b1 == hp.b1 == bp.b1 == notch.b1 == ap.b1
      && lp.b2 == hp.b2 == bp.b2 == notch.b2 == ap.b2
  {
  }

  /** At peak_gain = 0 (so v = 10^0 = 1) the peak filter is the identity: a0 = 1, a1 = b1 and
      a2 = b2, so it returns its input unchanged. */
  lemma PeakZeroGainIsIdentity(p: Prelude, q: real, x: seq<real>)
    requires p.v == 1.0 && Defined(9, p, SqrtTwo, q, 0.0)
    ensures var c := BiQuadCoeffs(9, p, q, 0.0).value;
      c.a0 == 1.0 && c.a1 == c.b1 && c.a2 == c.b2 && Df1(c, x) == x
  {
    var c := BiQuadCoeffs(9, p, q, 0.0).value;
    assert c == Peak(p.k, 1.0, q, true);
    Reciprocal(1.0 + 1.0 / q * p.k + p.k * p.k);
    Df1Identity(c, x);
  }

  /** The first-order kinds 1, 2, 3, 4, 12, 13 and 15 leave a2 = b2 = 0; kind 1 has a0 = 1 + b1,
      kind 2 has a0 = 1 - b1, kind 15 has a1 = -1 and b1 = -a0. */
  lemma FirstOrderShapes(kind: int, p: Prelude, q: real, peakGain: real)
    requires kind in {1, 2, 3, 4, 12, 13, 15} && Defined(kind, p, SqrtTwo, q, peakGain)
    ensures var c := BiQuadCoeffs(kind, p, q, peakGain).value;
      && c.a2 == 0.0 && c.b2 == 0.0
      && (kind == 1 ==> c.a0 == 1.0 + c.b1)
      && (kind == 2 ==> c.a0 == 1.0 - c.b1)
      && (kind == 15 ==> c.a1 == -1.0 && c.b1 == -c.a0)
  {
  }

  /** An unknown kind is a KeyError carrying that kind. */
  lemma UnknownKindFails(kind: int, p: Prelude, q: real, peakGain: real)
    requires !(1 <= kind <= 15)
    ensures BiQuadCoeffs(kind, p, q, peakGain) == KeyError(kind)
  {
  }

  // ---------------------------------------------------------------------------------------------
  // Normalised sections.

  /** A section given by its numerator n0 + n1/z + n2/z^2 and denominator d0 + d1/z + d2/z^2,
      divided through by d0: the `norm` of each normalised branch is 1/d0. */
  function Normalise(n0: real, n1: real, n2: real, d0: real, d1: real, d2: real): Coeffs
    requires d0 != 0.0
  {
    var norm := 1.0 / d0;
    Coeffs(n0 * norm, n1 * norm, n2 * norm, d1 * norm, d2 * norm)
  }

  /** norm * (its divisor) == 1. */
  lemma Reciprocal(d: real)
    requires d != 0.0
    ensures (1.0 / d) * d == 1.0
  {
  }

  /** The norm of a normalised section, as a value whose product with d0 is 1. */
  lemma NormOf(n0: real, n1: real, n2: real, d0: real, d1: real, d2: real) returns (norm: real)
    requires d0 != 0.0
    ensures norm * d0 == 1.0
    ensures Normalise(n0, n1, n2, d0, d1, d2) == Coeffs(n0 * norm, n1 * norm, n2 * norm, d1 * norm, d2 * norm)
  {
    norm := 1.0 / d0;
  }

  /** Normalising keeps the ratio of numerator to denominator at z = 1, so a section's gain at DC
      is that of its two polynomials there. */
  lemma DcGainOf(n0: real, n1: real, n2: real, d0: real, d1: real, d2: real, g: real)
    requires d0 != 0.0 && n0 + n1 + n2 == g * (d0 + d1 + d2)
    ensures GainAtDc(Normalise(n0, n1, n2, d0, d1, d2), g)
  {
    var norm := NormOf(n0, n1, n2, d0, d1, d2);
    var c := Normalise(n0, n1, n2, d0, d1, d2);
    assert DcNumerator(c) == (n0 + n1 + n2) * norm;
    assert DcDenominator(c) == (d0 + d1 + d2) * norm;
  }

  /** Likewise at z = -1, for the gain at Nyquist. */
  lemma NyquistGainOf(n0: real, n1: real, n2: real, d0: real, d1: real, d2: real, g: real)
    requires d0 != 0.0 && n0 - n1 + n2 == g * (d0 - d1 + d2)
    ensures GainAtNyquist(Normalise(n0, n1, n2, d0, d1, d2), g)
  {
    var norm := NormOf(n0, n1, n2, d0, d1, d2);
    var c := Normalise(n0, n1, n2, d0, d1, d2);
    assert NyquistNumerator(c) == (n0 - n1 + n2) * norm;
    assert NyquistDenominator(c) == (d0 - d1 + d2) * norm;
  }

  /** A section whose polynomials have the ratio 1/g at z = 1 attenuates DC by g. */
  lemma DcCutOf(n0: real, n1: real, n2: real, d0: real, d1: real, d2: real, g: real)
    requires d0 != 0.0 && g * (n0 + n1 + n2) == d0 + d1 + d2
    ensures var c := Normalise(n0, n1, n2, d0, d1, d2); CutAtDc(c, g)
  {
    var norm := NormOf(n0, n1, n2, d0, d1, d2);
    var c := Normalise(n0, n1, n2, d0, d1, d2);
    assert DcNumerator(c) == (n0 + n1 + n2) * norm;
    assert DcDenominator(c) == (d0 + d1 + d2) * norm;
  }

  /** Likewise at z = -1. */
  lemma NyquistCutOf(n0: real, n1: real, n2: real, d0: real, d1: real, d2: real, g: real)
    requires d0 != 0.0 && g * (n0 - n1 + n2) == d0 - d1 + d2
    ensures var c := Normalise(n0, n1, n2, d0, d1, d2); CutAtNyquist(c, g)
  {
    var norm := NormOf(n0, n1, n2, d0, d1, d2);
    var c := Normalise(n0, n1, n2, d0, d1, d2);
    assert NyquistNumerator(c) == (n0 - n1 + n2) * norm;
    assert NyquistDenominator(c) == (d0 - d1 + d2) * norm;
  }

  /** The cut section c is the inverse of the boost section b: b's numerator is a0_b times c's
      denominator, c's numerator is a0_c times b's denominator, and a0_b*a0_c == 1, so the two
      transfer functions multiply to 1. */
  ghost predicate Inverse(b: Coeffs, c: Coeffs)
  {
    && b.a0 * c.a0 == 1.0
    && b.a1 == b.a0 * c.b1 && b.a2 == b.a0 * c.b2
    && c.a1 == c.a0 * b.b1 && c.a2 == c.a0 * b.b2
  }

  /** Normalising a pair of polynomials and normalising the same pair swapped give inverse
      sections. */
  lemma SwappedInverse(n0: real, n1: real, n2: real, d0: real, d1: real, d2: real)
    requires n0 != 0.0 && d0 != 0.0
    ensures Inverse(Normalise(n0, n1, n2, d0, d1, d2), Normalise(d0, d1, d2, n0, n1, n2))
  {
    var nb := NormOf(n0, n1, n2, d0, d1, d2);
    var nc := NormOf(d0, d1, d2, n0, n1, n2);
    InverseOf(Normalise(n0, n1, n2, d0, d1, d2), Normalise(d0, d1, d2, n0, n1, n2), n0, n1, n2, d0, d1, d2, nb, nc);
  }

  lemma InverseOf(b: Coeffs, c: Coeffs, n0: real, n1: real, n2: real, d0: real, d1: real, d2: real, nb: real, nc: real)
    requires nb * d0 == 1.0 && nc * n0 == 1.0
    requires b == Coeffs(n0 * nb, n1 * nb, n2 * nb, d1 * nb, d2 * nb)
    requires c == Coeffs(d0 * nc, d1 * nc, d2 * nc, n1 * nc, n2 * nc)
    ensures Inverse(b, c)
  {
    UnitProduct(b.a0, c.a0, n0, nb, d0, nc);
    Rescale(b.a1, b.a0, c.b1, n1, nb, n0, nc);
    Rescale(b.a2, b.a0, c.b2, n2, nb, n0, nc);
    Rescale(c.a1, c.a0, b.b1, d1, nc, d0, nb);
    Rescale(c.a2, c.a0, b.b2, d2, nc, d0, nb);
  }

  lemma UnitProduct(p: real, q: real, x: real, m: real, y: real, n: real)
    requires p == x * m && q == y * n && m * y == 1.0 && n * x == 1.0
    ensures p * q == 1.0
  {
    assert (x * m) * (y * n) == (m * y) * (n * x);
  }

  lemma Rescale(p: real, q: real, r: real, x: real, m: real, y: real, n: real)
    requires p == x * m && q == y * m && r == x * n && n * y == 1.0
    ensures p == q * r
  {
    assert (y * m) * (x * n) == (x * m) * (n * y);
  }

  // ---------------------------------------------------------------------------------------------
  // Kinds 3 to 8 and 14, which compute their coefficients from norm directly, as normalised sections.

  /** Kinds 3 and 4 divide by their leading denominator terms 1/k + 1 and k + 1. */
  lemma FirstOrderForms(k: real)
    ensures k != 0.0 && 1.0 / k + 1.0 != 0.0 ==>
      Lowpass1p1z(k) == Normalise(1.0, 1.0, 0.0, 1.0 / k + 1.0, 1.0 - 1.0 / k, 0.0)
    ensures k + 1.0 != 0.0 ==>
      Highpass1p1z(k) == Normalise(1.0, -1.0, 0.0, k + 1.0, k - 1.0, 0.0)
  {
  }

  /** Kinds 5 to 8 and 14 share the denominator 1 + k/q + k*k, 2(k*k - 1), 1 - k/q + k*k; the
      allpass numerator is that denominator reversed. */
  lemma SharedPoleForms(k: real, q: real)
    requires SharedPolesDefined(k, q)
    ensures Lowpass(k, q) == Normalise(k * k, 2.0 * (k * k), k * k, 1.0 + k / q + k * k, 2.0 * (k * k - 1.0), 1.0 - k / q + k * k)
    ensures Highpass(k, q) == Normalise(1.0, -2.0, 1.0, 1.0 + k / q + k * k, 2.0 * (k * k - 1.0), 1.0 - k / q + k * k)
    ensures Bandpass(k, q) == Normalise(k / q, 0.0, -(k / q), 1.0 + k / q + k * k, 2.0 * (k * k - 1.0), 1.0 - k / q + k * k)
    ensures Notch(k, q) == Normalise(1.0 + k * k, 2.0 * (k * k - 1.0), 1.0 + k * k, 1.0 + k / q + k * k, 2.0 * (k * k - 1.0), 1.0 - k / q + k * k)
    ensures Allpass(k, q) == Normalise(1.0 - k / q + k * k, 2.0 * (k * k - 1.0), 1.0 + k / q + k * k, 1.0 + k / q + k * k, 2.0 * (k * k - 1.0), 1.0 - k / q + k * k)
  {
    Reciprocal(1.0 + k / q + k * k);
  }

  // ---------------------------------------------------------------------------------------------
  // Gains at DC (z = 1) and at Nyquist (z = -1).

  /** The one-pole low-pass (kind 1) and the 1p1z low-pass (kind 3) pass DC with unit gain; the
      1p1z low-pass has a zero at Nyquist. */
  lemma FirstOrderLowpassGains(p: Prelude, q: real, peakGain: real)
    requires Defined(3, p, SqrtTwo, q, peakGain)
    ensures GainAtDc(BiQuadCoeffs(1, p, q, peakGain).value, 1.0)
    ensures var c := BiQuadCoeffs(3, p, q, peakGain).value;
      GainAtDc(c, 1.0) && NyquistNumerator(c) == 0.0
  {
    FirstOrderForms(p.k);
    DcGainOf(1.0, 1.0, 0.0, 1.0 / p.k + 1.0, 1.0 - 1.0 / p.k, 0.0, 1.0);
    NyquistGainOf(1.0, 1.0, 0.0, 1.0 / p.k + 1.0, 1.0 - 1.0 / p.k, 0.0, 0.0);
  }

  /** The one-pole high-pass (kind 2) and the 1p1z high-pass (kind 4) pass Nyquist with unit
      gain; the 1p1z high-pass has a zero at DC. */
  lemma FirstOrderHighpassGains(p: Prelude, q: real, peakGain: real)
    requires Defined(4, p, SqrtTwo, q, peakGain)
    ensures GainAtNyquist(BiQuadCoeffs(2, p, q, peakGain).value, 1.0)
    ensures var c := BiQuadCoeffs(4, p, q, peakGain).value;
      GainAtNyquist(c, 1.0) && DcNumerator(c) == 0.0
  {
    FirstOrderForms(p.k);
    NyquistGainOf(1.0, -1.0, 0.0, p.k + 1.0, p.k - 1.0, 0.0, 1.0);
    DcGainOf(1.0, -1.0, 0.0, p.k + 1.0, p.k - 1.0, 0.0, 0.0);
  }

  /** Kinds 5 to 8 and 14: the low-pass has unit DC gain and a zero at Nyquist, the high-pass the
      reverse, the band-pass zeros at both, the notch and the allpass unit gain at both. */
  lemma SharedPoleGains(p: Prelude, q: real, peakGain: real)
    requires Defined(5, p, SqrtTwo, q, peakGain)
    ensures var lp := BiQuadCoeffs(5, p, q, peakGain).value;
      GainAtDc(lp, 1.0) && NyquistNumerator(lp) == 0.0
    ensures var hp := BiQuadCoeffs(6, p, q, peakGain).value;
      GainAtNyquist(hp, 1.0) && DcNumerator(hp) == 0.0
    ensures var bp := BiQuadCoeffs(7, p, q, peakGain).value;
      DcNumerator(bp) == 0.0 && NyquistNumerator(bp) == 0.0
    ensures var notch := BiQuadCoeffs(8, p, q, peakGain).value;
      GainAtDc(notch, 1.0) && GainAtNyquist(notch, 1.0)
    ensures var ap := BiQuadCoeffs(14, p, q, peakGain).value;
      GainAtDc(ap, 1.0) && GainAtNyquist(ap, 1.0)
  {
    LowpassGains(p.k, q);
    HighpassGains(p.k, q);
    BandpassGains(p.k, q);
    NotchGains(p.k, q);
    AllpassGains(p.k, q);
  }

  lemma LowpassGains(k: real, q: real)
    requires SharedPolesDefined(k, q)
    ensures GainAtDc(Lowpass(k, q), 1.0) && NyquistNumerator(Lowpass(k, q)) == 0.0
  {
    SharedPoleForms(k, q);
    DcGainOf(k * k, 2.0 * (k * k), k * k, 1.0 + k / q + k * k, 2.0 * (k * k - 1.0), 1.0 - k / q + k * k, 1.0);
    NyquistGainOf(k * k, 2.0 * (k * k), k * k, 1.0 + k / q + k * k, 2.0 * (k * k - 1.0), 1.0 - k / q + k * k, 0.0);
  }

  lemma HighpassGains(k: real, q: real)
    requires SharedPolesDefined(k, q)
    ensures GainAtNyquist(Highpass(k, q), 1.0) && DcNumerator(Highpass(k, q)) == 0.0
  {
    SharedPoleForms(k, q);
    NyquistGainOf(1.0, -2.0, 1.0, 1.0 + k / q + k * k, 2.0 * (k * k - 1.0), 1.0 - k / q + k * k, 1.0);
    DcGainOf(1.0, -2.0, 1.0, 1.0 + k / q + k * k, 2.0 * (k * k - 1.0), 1.0 - k / q + k * k, 0.0);
  }

  lemma BandpassGains(k: real, q: real)
    requires SharedPolesDefined(k, q)
    ensures DcNumerator(Bandpass(k, q)) == 0.0 && NyquistNumerator(Bandpass(k, q)) == 0.0
  {
    SharedPoleForms(k, q);
    DcGainOf(k / q, 0.0, -(k / q), 1.0 + k / q + k * k, 2.0 * (k * k - 1.0), 1.0 - k / q + k * k, 0.0);
    NyquistGainOf(k / q, 0.0, -(k / q), 1.0 + k / q + k * k, 2.0 * (k * k - 1.0), 1.0 - k / q + k * k, 0.0);
  }

  lemma NotchGains(k: real, q: real)
    requires SharedPolesDefined(k, q)
    ensures GainAtDc(Notch(k, q), 1.0) && GainAtNyquist(Notch(k, q), 1.0)
  {
    SharedPoleForms(k, q);
    DcGainOf(1.0 + k * k, 2.0 * (k * k - 1.0), 1.0 + k * k, 1.0 + k / q + k * k, 2.0 * (k * k - 1.0), 1.0 - k / q + k * k, 1.0);
    NyquistGainOf(1.0 + k * k, 2.0 * (k * k - 1.0), 1.0 + k * k, 1.0 + k / q + k * k, 2.0 * (k * k - 1.0), 1.0 - k / q + k * k, 1.0);
  }

  lemma AllpassGains(k: real, q: real)
    requires SharedPolesDefined(k, q)
    ensures GainAtDc(Allpass(k, q), 1.0) && GainAtNyquist(Allpass(k, q), 1.0)
  {
    SharedPoleForms(k, q);
    DcGainOf(1.0 - k / q + k * k, 2.0 * (k * k - 1.0), 1.0 + k / q + k * k, 1.0 + k / q + k * k, 2.0 * (k * k - 1.0), 1.0 - k / q + k * k, 1.0);
    NyquistGainOf(1.0 - k / q + k * k, 2.0 * (k * k - 1.0), 1.0 + k / q + k * k, 1.0 + k / q + k * k, 2.0 * (k * k - 1.0), 1.0 - k / q + k * k, 1.0);
  }

  /** The peak filter (kind 9) has unit gain at DC and at Nyquist, boost or cut. */
  lemma PeakGains(p: Prelude, q: real, peakGain: real)
    requires Defined(9, p, SqrtTwo, q, peakGain)
    ensures var c := BiQuadCoeffs(9, p, q, peakGain).value;
      GainAtDc(c, 1.0) && GainAtNyquist(c, 1.0)
  {
    PeakGainsAt(p.k, p.v, q, peakGain >= 0.0);
  }

  lemma PeakGainsAt(k: real, v: real, q: real, boost: bool)
    requires PeakDefined(k, v, q, boost)
    ensures GainAtDc(Peak(k, v, q, boost), 1.0) && GainAtNyquist(Peak(k, v, q, boost), 1.0)
  {
    if boost {
      DcGainOf(1.0 + v / q * k + k * k, 2.0 * (k * k - 1.0), 1.0 - v / q * k + k * k,
               1.0 + 1.0 / q * k + k * k, 2.0 * (k * k - 1.0), 1.0 - 1.0 / q * k + k * k, 1.0);
      NyquistGainOf(1.0 + v / q * k + k * k, 2.0 * (k * k - 1.0), 1.0 - v / q * k + k * k,
                    1.0 + 1.0 / q * k + k * k, 2.0 * (k * k - 1.0), 1.0 - 1.0 / q * k + k * k, 1.0);
    } else {
      DcGainOf(1.0 + 1.0 / q * k + k * k, 2.0 * (k * k - 1.0), 1.0 - 1.0 / q * k + k * k,
               1.0 + v / q * k + k * k, 2.0 * (k * k - 1.0), 1.0 - v / q * k + k * k, 1.0);
      NyquistGainOf(1.0 + 1.0 / q * k + k * k, 2.0 * (k * k - 1.0), 1.0 - 1.0 / q * k + k * k,
                    1.0 + v / q * k + k * k, 2.0 * (k * k - 1.0), 1.0 - v / q * k + k * k, 1.0);
    }
  }

  /** The second-order low shelf (kind 10) scales DC by v when boosting and by 1/v when cutting,
      and passes Nyquist with unit gain, whatever the shelving constant sqrt_two is. */
  lemma LowShelfKindGains(p: Prelude, sqrtTwo: real, q: real, peakGain: real)
    requires Defined(10, p, sqrtTwo, q, peakGain)
    ensures var low := Design(10, p, sqrtTwo, q, peakGain);
      && GainAtNyquist(low, 1.0)
      && (if peakGain >= 0.0 then GainAtDc(low, p.v) else CutAtDc(low, p.v))
  {
    DesignIsLowShelf(p, sqrtTwo, q, peakGain);
    if peakGain >= 0.0 {
      LowShelfBoostGains(p.k, p.v, p.sqrtV, sqrtTwo);
    } else {
      LowShelfCutGains(p.k, p.v, p.sqrtV, sqrtTwo);
    }
  }

  /** The second-order high shelf (kind 11) does the same at Nyquist and passes DC. */
  lemma HighShelfKindGains(p: Prelude, sqrtTwo: real, q: real, peakGain: real)
    requires Defined(11, p, sqrtTwo, q, peakGain)
    ensures var high := Design(11, p, sqrtTwo, q, peakGain);
      && GainAtDc(high, 1.0)
      && (if peakGain >= 0.0 then GainAtNyquist(high, p.v) else CutAtNyquist(high, p.v))
  {
    DesignIsHighShelf(p, sqrtTwo, q, peakGain);
    if peakGain >= 0.0 {
      HighShelfBoostGains(p.k, p.v, p.sqrtV, sqrtTwo);
    } else {
      HighShelfCutGains(p.k, p.v, p.sqrtV, sqrtTwo);
    }
  }

  /** Kind 10 takes the low-shelf branch, boost or cut by the sign of peak_gain. */
  lemma DesignIsLowShelf(p: Prelude, sqrtTwo: real, q: real, peakGain: real)
    requires Defined(10, p, sqrtTwo, q, peakGain)
    ensures Design(10, p, sqrtTwo, q, peakGain) == LowShelf(p.k, p.v, p.sqrtV, sqrtTwo, peakGain >= 0.0)
  {
  }

  /** Kind 11 takes the high-shelf branch. */
  lemma DesignIsHighShelf(p: Prelude, sqrtTwo: real, q: real, peakGain: real)
    requires Defined(11, p, sqrtTwo, q, peakGain)
    ensures Design(11, p, sqrtTwo, q, peakGain) == HighShelf(p.k, p.v, p.sqrtV, sqrtTwo, peakGain >= 0.0)
  {
  }

  lemma LowShelfBoostGains(k: real, v: real, sv: real, sqrtTwo: real)
    requires LowShelfDefined(k, v, sv, sqrtTwo, true)
    ensures GainAtNyquist(LowShelf(k, v, sv, sqrtTwo, true), 1.0) && GainAtDc(LowShelf(k, v, sv, sqrtTwo, true), v)
  {
    NyquistGainOf(1.0 + sv * k + v * k * k, 2.0 * (v * k * k - 1.0), 1.0 - sv * k + v * k * k,
                  1.0 + sqrtTwo * k + k * k, 2.0 * (k * k - 1.0), 1.0 - sqrtTwo * k + k * k, 1.0);
    DcGainOf(1.0 + sv * k + v * k * k, 2.0 * (v * k * k - 1.0), 1.0 - sv * k + v * k * k,
             1.0 + sqrtTwo * k + k * k, 2.0 * (k * k - 1.0), 1.0 - sqrtTwo * k + k * k, v);
  }

  lemma LowShelfCutGains(k: real, v: real, sv: real, sqrtTwo: real)
    requires LowShelfDefined(k, v, sv, sqrtTwo, false)
    ensures var c := LowShelf(k, v, sv, sqrtTwo, false);
      GainAtNyquist(c, 1.0) && CutAtDc(c, v)
  {
    NyquistGainOf(1.0 + sqrtTwo * k + k * k, 2.0 * (k * k - 1.0), 1.0 - sqrtTwo * k + k * k,
                  1.0 + sv * k + v * k * k, 2.0 * (v * k * k - 1.0), 1.0 - sv * k + v * k * k, 1.0);
    DcCutOf(1.0 + sqrtTwo * k + k * k, 2.0 * (k * k - 1.0), 1.0 - sqrtTwo * k + k * k,
            1.0 + sv * k + v * k * k, 2.0 * (v * k * k - 1.0), 1.0 - sv * k + v * k * k, v);
  }

  lemma HighShelfBoostGains(k: real, v: real, sv: real, sqrtTwo: real)
    requires HighShelfDefined(k, v, sv, sqrtTwo, true)
    ensures GainAtDc(HighShelf(k, v, sv, sqrtTwo, true), 1.0) && GainAtNyquist(HighShelf(k, v, sv, sqrtTwo, true), v)
  {
    DcGainOf(v + sv * k + k * k, 2.0 * (k * k - v), v - sv * k + k * k,
             1.0 + sqrtTwo * k + k * k, 2.0 * (k * k - 1.0), 1.0 - sqrtTwo * k + k * k, 1.0);
    NyquistGainOf(v + sv * k + k * k, 2.0 * (k * k - v), v - sv * k + k * k,
                  1.0 + sqrtTwo * k + k * k, 2.0 * (k * k - 1.0), 1.0 - sqrtTwo * k + k * k, v);
  }

  lemma HighShelfCutGains(k: real, v: real, sv: real, sqrtTwo: real)
    requires HighShelfDefined(k, v, sv, sqrtTwo, false)
    ensures var c := HighShelf(k, v, sv, sqrtTwo, false);
      GainAtDc(c, 1.0) && CutAtNyquist(c, v)
  {
    DcGainOf(1.0 + sqrtTwo * k + k * k, 2.0 * (k * k - 1.0), 1.0 - sqrtTwo * k + k * k,
             v + sv * k + k * k, 2.0 * (k * k - v), v - sv * k + k * k, 1.0);
    NyquistCutOf(1.0 + sqrtTwo * k + k * k, 2.0 * (k * k - 1.0), 1.0 - sqrtTwo * k + k * k,
                 v + sv * k + k * k, 2.0 * (k * k - v), v - sv * k + k * k, v);
  }

  /** The first-order shelves: kind 12 scales DC by v (boost) or 1/v (cut) with unit gain at
      Nyquist; kind 13 scales Nyquist likewise with unit gain at DC. */
  lemma FirstOrderShelfGains(p: Prelude, q: real, peakGain: real)
    requires Defined(12, p, SqrtTwo, q, peakGain) && Defined(13, p, SqrtTwo, q, peakGain)
    ensures var low := BiQuadCoeffs(12, p, q, peakGain).value;
      && GainAtNyquist(low, 1.0)
      && (if peakGain >= 0.0 then GainAtDc(low, p.v) else CutAtDc(low, p.v))
    ensures var high := BiQuadCoeffs(13, p, q, peakGain).value;
      && GainAtDc(high, 1.0)
      && (if peakGain >= 0.0 then GainAtNyquist(high, p.v) else CutAtNyquist(high, p.v))
  {
    LowShelf1stGains(p.k, p.v, peakGain >= 0.0);
    HighShelf1stGains(p.k, p.v, peakGain >= 0.0);
  }

  lemma LowShelf1stGains(k: real, v: real, boost: bool)
    requires LowShelf1stDefined(k, v, boost)
    ensures var c := LowShelf1st(k, v, boost);
      && GainAtNyquist(c, 1.0)
      && (if boost then GainAtDc(c, v) else CutAtDc(c, v))
  {
    if boost {
      NyquistGainOf(k * v + 1.0, k * v - 1.0, 0.0, k + 1.0, k - 1.0, 0.0, 1.0);
      DcGainOf(k * v + 1.0, k * v - 1.0, 0.0, k + 1.0, k - 1.0, 0.0, v);
    } else {
      NyquistGainOf(k + 1.0, k - 1.0, 0.0, k * v + 1.0, k * v - 1.0, 0.0, 1.0);
      DcCutOf(k + 1.0, k - 1.0, 0.0, k * v + 1.0, k * v - 1.0, 0.0, v);
    }
  }

  lemma HighShelf1stGains(k: real, v: real, boost: bool)
    requires HighShelf1stDefined(k, v, boost)
    ensures var c := HighShelf1st(k, v, boost);
      && GainAtDc(c, 1.0)
      && (if boost then GainAtNyquist(c, v) else CutAtNyquist(c, v))
  {
    if boost {
      DcGainOf(k + v, k - v, 0.0, k + 1.0, k - 1.0, 0.0, 1.0);
      NyquistGainOf(k + v, k - v, 0.0, k + 1.0, k - 1.0, 0.0, v);
    } else {
      DcGainOf(k + 1.0, k - 1.0, 0.0, k + v, k - v, 0.0, 1.0);
      NyquistCutOf(k + 1.0, k - 1.0, 0.0, k + v, k - v, 0.0, v);
    }
  }

  /** The first-order allpass (kind 15) inverts DC and passes Nyquist. */
  lemma FirstOrderAllpassGains(p: Prelude, q: real, peakGain: real)
    requires Defined(15, p, SqrtTwo, q, peakGain)
    ensures var c := BiQuadCoeffs(15, p, q, peakGain).value;
      GainAtDc(c, -1.0) && GainAtNyquist(c, 1.0)
  {
  }

  /** A constant input that has reached the low-pass (kind 5) comes out unchanged. */
  lemma LowpassHoldsDc(p: Prelude, q: real, peakGain: real, u: real, n: nat)
    requires Defined(5, p, SqrtTwo, q, peakGain)
    ensures Df1From(BiQuadCoeffs(5, p, q, peakGain).value, Registers(u, u, u, u), Constant(u, n)) == Constant(u, n)
  {
    LowpassGains(p.k, q);
    Df1SteadyDc(BiQuadCoeffs(5, p, q, peakGain).value, 1.0, u, n);
  }

  // ---------------------------------------------------------------------------------------------
  // Boost and cut.

  /** The leading term of kind 9's denominator: 1 + k/q + k*k when boosting, 1 + v/q*k + k*k when
      cutting; norm is its reciprocal. */
  function PeakLead(k: real, v: real, q: real, boost: bool): real
    requires q != 0.0
  {
    if boost then 1.0 + 1.0 / q * k + k * k else 1.0 + v / q * k + k * k
  }

  /** Kind 9 sets b1 = a1 = 2(k*k - 1)*norm on both sides of the boost/cut split. */
  lemma PeakSharesB1(p: Prelude, q: real, peakGain: real)
    requires Defined(9, p, SqrtTwo, q, peakGain)
    ensures var c := BiQuadCoeffs(9, p, q, peakGain).value;
      c.b1 == c.a1 == 2.0 * (p.k * p.k - 1.0) * (1.0 / PeakLead(p.k, p.v, q, peakGain >= 0.0))
  {
    DesignIsPeak(p, q, peakGain);
    PeakB1(p.k, p.v, q, peakGain >= 0.0);
  }

  /** Kind 9 takes the peak branch. */
  lemma DesignIsPeak(p: Prelude, q: real, peakGain: real)
    requires Defined(9, p, SqrtTwo, q, peakGain)
    ensures BiQuadCoeffs(9, p, q, peakGain).value == Peak(p.k, p.v, q, peakGain >= 0.0)
  {
  }

  /** Both peak branches share b1 = a1 = 2(k*k - 1) over the branch's leading denominator term. */
  lemma PeakB1(k: real, v: real, q: real, boost: bool)
    requires PeakDefined(k, v, q, boost)
    ensures Peak(k, v, q, boost).b1 == Peak(k, v, q, boost).a1 == 2.0 * (k * k - 1.0) * (1.0 / PeakLead(k, v, q, boost))
  {
    if boost {
      assert Peak(k, v, q, true) == Normalise(1.0 + v / q * k + k * k, 2.0 * (k * k - 1.0), 1.0 - v / q * k + k * k,
                                              1.0 + 1.0 / q * k + k * k, 2.0 * (k * k - 1.0), 1.0 - 1.0 / q * k + k * k);
    } else {
      assert Peak(k, v, q, false) == Normalise(1.0 + 1.0 / q * k + k * k, 2.0 * (k * k - 1.0), 1.0 - 1.0 / q * k + k * k,
                                               1.0 + v / q * k + k * k, 2.0 * (k * k - 1.0), 1.0 - v / q * k + k * k);
    }
  }

  /** For kinds 9 to 13, cutting by g undoes boosting by g. */
  lemma BoostCutInverse(kind: int, p: Prelude, sqrtTwo: real, q: real, g: real)
    requires 9 <= kind <= 13 && g > 0.0
    requires Defined(kind, p, sqrtTwo, q, g) && Defined(kind, p, sqrtTwo, q, -g)
    ensures Inverse(Design(kind, p, sqrtTwo, q, g), Design(kind, p, sqrtTwo, q, -g))
  {
    if kind == 9 {
      PeakInverse(p.k, p.v, q);
    } else if kind == 10 {
      LowShelfInverse(p.k, p.v, p.sqrtV, sqrtTwo);
    } else if kind == 11 {
      HighShelfInverse(p.k, p.v, p.sqrtV, sqrtTwo);
    } else {
      FirstOrderShelfInverse(kind, p.k, p.v);
    }
  }

  lemma PeakInverse(k: real, v: real, q: real)
    requires PeakDefined(k, v, q, true) && PeakDefined(k, v, q, false)
    ensures Inverse(Peak(k, v, q, true), Peak(k, v, q, false))
  {
    assert Peak(k, v, q, true) == Normalise(1.0 + v / q * k + k * k, 2.0 * (k * k - 1.0), 1.0 - v / q * k + k * k,
                1.0 + 1.0 / q * k + k * k, 2.0 * (k * k - 1.0), 1.0 - 1.0 / q * k + k * k);
    assert Peak(k, v, q, false) == Normalise(1.0 + 1.0 / q * k + k * k, 2.0 * (k * k - 1.0), 1.0 - 1.0 / q * k + k * k,
                1.0 + v / q * k + k * k, 2.0 * (k * k - 1.0), 1.0 - v / q * k + k * k);
    SwappedInverse(1.0 + v / q * k + k * k, 2.0 * (k * k - 1.0), 1.0 - v / q * k + k * k,
                   1.0 + 1.0 / q * k + k * k, 2.0 * (k * k - 1.0), 1.0 - 1.0 / q * k + k * k);
  }

  lemma LowShelfInverse(k: real, v: real, sv: real, sqrtTwo: real)
    requires LowShelfDefined(k, v, sv, sqrtTwo, true) && LowShelfDefined(k, v, sv, sqrtTwo, false)
    ensures Inverse(LowShelf(k, v, sv, sqrtTwo, true), LowShelf(k, v, sv, sqrtTwo, false))
  {
    SwappedInverse(1.0 + sv * k + v * k * k, 2.0 * (v * k * k - 1.0), 1.0 - sv * k + v * k * k,
                   1.0 + sqrtTwo * k + k * k, 2.0 * (k * k - 1.0), 1.0 - sqrtTwo * k + k * k);
  }

  lemma HighShelfInverse(k: real, v: real, sv: real, sqrtTwo: real)
    requires HighShelfDefined(k, v, sv, sqrtTwo, true) && HighShelfDefined(k, v, sv, sqrtTwo, false)
    ensures Inverse(HighShelf(k, v, sv, sqrtTwo, true), HighShelf(k, v, sv, sqrtTwo, false))
  {
    SwappedInverse(v + sv * k + k * k, 2.0 * (k * k - v), v - sv * k + k * k,
                   1.0 + sqrtTwo * k + k * k, 2.0 * (k * k - 1.0), 1.0 - sqrtTwo * k + k * k);
  }

  lemma FirstOrderShelfInverse(kind: int, k: real, v: real)
    requires kind == 12 || kind == 13
    requires kind == 12 ==> LowShelf1stDefined(k, v, true) && LowShelf1stDefined(k, v, false)
    requires kind == 13 ==> HighShelf1stDefined(k, v, true) && HighShelf1stDefined(k, v, false)
    ensures kind == 12 ==> Inverse(LowShelf1st(k, v, true), LowShelf1st(k, v, false))
    ensures kind == 13 ==> Inverse(HighShelf1st(k, v, true), HighShelf1st(k, v, false))
  {
    if kind == 12 {
      SwappedInverse(k * v + 1.0, k * v - 1.0, 0.0, k + 1.0, k - 1.0, 0.0);
    } else {
      SwappedInverse(k + v, k - v, 0.0, k + 1.0, k - 1.0, 0.0);
    }
  }

  // ---------------------------------------------------------------------------------------------
  // The shelving constants.

  /** As written, a 0 dB low shelf (v = 1, so sqrt_v = 2^1 = 2) at k = 1 (fc = fs/4) has
      a0 = 2/3, a1 = a2 = b1 = 0 and b2 = -1/3 instead of the identity filter. */
  lemma ShelfZeroGainAsWritten(q: real)
    ensures BiQuadCoeffs(10, Prelude(1.0, 1.0, 2.0, 0.0, 0.0), q, 0.0).value == Coeffs(2.0 / 3.0, 0.0, 0.0, 0.0, -1.0 / 3.0)
  {
    assert LowShelf(1.0, 1.0, 2.0, 4.0, true) == Coeffs(2.0 / 3.0, 0.0, 0.0, 0.0, -1.0 / 3.0);
  }

  /** That section turns a unit impulse into 2/3, 0, 2/9: it is not the identity. */
  lemma ShelfZeroGainImpulse(c: Coeffs, x: seq<real>)
    requires c == Coeffs(2.0 / 3.0, 0.0, 0.0, 0.0, -1.0 / 3.0) && x == [1.0, 0.0, 0.0]
    ensures Df1(c, x) == [2.0 / 3.0, 0.0, 2.0 / 9.0]
  {
    var y := [2.0 / 3.0, 0.0, 2.0 / 9.0];
    assert RecurrenceAt(c, x, y, 0) && RecurrenceAt(c, x, y, 1) && RecurrenceAt(c, x, y, 2);
    Df1Characterized(c, x, y);
  }

  /** With the intended constants, sqrt_two*sqrt_two == 2 and sqrt_v*sqrt_v == 2v (both
      nonnegative), a 0 dB shelf of either kind is the identity filter. */
  lemma ShelfZeroGainIntended(kind: int, p: Prelude, sqrtTwo: real, q: real, x: seq<real>)
    requires kind == 10 || kind == 11
    requires sqrtTwo >= 0.0 && sqrtTwo * sqrtTwo == 2.0
    requires p.sqrtV >= 0.0 && p.sqrtV * p.sqrtV == 2.0 * p.v
    requires p.v == 1.0 && Defined(kind, p, sqrtTwo, q, 0.0)
    ensures var c := Design(kind, p, sqrtTwo, q, 0.0);
      c.a0 == 1.0 && c.a1 == c.b1 && c.a2 == c.b2 && Df1(c, x) == x
  {
    SameRoot(p.sqrtV, sqrtTwo);
    Reciprocal(1.0 + sqrtTwo * p.k + p.k * p.k);
    var c := Design(kind, p, sqrtTwo, q, 0.0);
    Df1Identity(c, x);
  }

  /** Two nonnegative numbers with the same square are equal. */
  lemma SameRoot(a: real, b: real)
    requires a >= 0.0 && b >= 0.0 && a * a == b * b
    ensures a == b
  {
    assert (a - b) * (a + b) == a * a - b * b;
    if a + b != 0.0 {
      assert (a - b) == ((a - b) * (a + b)) / (a + b);
    }
  }
}
