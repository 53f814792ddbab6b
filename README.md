# anolib filters in Dafny

A model of the sample-by-sample filters of anolib, Will Pirkle-style audio
DSP in Python, with proofs about them. Samples and coefficients are `real`s.

- `DirectForm.dfy` defines the direct-form-I second-order section. Its output
  is `y[n] = a0*x[n] + a1*x[n-1] + a2*x[n-2] - b1*y[n-1] - b2*y[n-2]`, with four
  registers cleared at the start. `Df1` is the reference fold that every
  filter loop is proved against.
  - `Df1Characterized` says that a sequence obeys the recurrence at every index
    exactly when it is `Df1`.
  - The file also proves linearity, the zero-input response, the identity
    section, and steady states under constant and alternating inputs.
- `Filters.dfy` covers the loops of `python/algo_dsp_filters.py` and the class
  `DcBlocker`.
  - The loops are `one_zero_filter`, `one_pole_filter`, `simple_resonator`,
    `second_order_lowpass` and `bi_quad`.
  - `bi_quad` adds `signal[i]` once more to every output. The model is
    therefore `Df1` with `a0 + 1`.
  - `DcBlocker` is a class with the source's fields. `process` appends to an
    output history that persists across calls. `reset` also restores the pole.
- `UtilFunctions.dfy` covers what `python/util_functions.py` adds:
  - the one-step feed-forward and feedback equations;
  - its `bi_quad`, which never stores the sample it computes. It is kept as
    written, next to a corrected twin.

  The `simple_resonator`, `second_order_lowpass` and signal generators of that
  file are the same code as their copies elsewhere, so they are modelled once.
- `BiquadDesign.dfy` is `bi_quad_coeffs`, the 15-kind coefficient table.
  - The transcendental prelude is an argument (`k`, `v`, `sqrt_v` and the two
    exponentials).
  - Every `norm` division has a nonzero-divisor precondition.
  - An unknown kind yields the `KeyError` the `kind_dict` lookup raises.
  - The proofs cover structural relations between coefficients, DC and Nyquist
    gains, and boost/cut inversion.
- `WpInputs.dfy` holds the 8-sample test inputs and the five 500-sample
  generators, with index-wise specifications. The generators are shared by
  `python/inpt_wp_inputs.py`, `python/util_signals.py` and
  `python/util_functions.py`.
- `GoldenVectors.dfy` proves the exact outputs that
  `python/test_dsp_filters_wp.py` expects from `one_zero_filter` and
  `one_pole_filter` with gains 0.5, 0.5.

The model follows the code in these details:
- `algo_dsp_filters.bi_quad` has the extra input term.
- `DcBlocker.reset` restores the pole and empties the history, besides zeroing
  the registers.
- `bi_quad_coeffs` raises `KeyError` for an unknown kind.
- The allpass kinds do not branch on the sign of the gain.

## Model

| member | source | states |
|---|---|---|
| DirectForm.Df1 | python/algo_dsp_filters.py:91-97 | the section's output from cleared registers has one sample per input sample |
| DirectForm.Df1At | python/util_functions.py:214-219 | sample i of `Df1` is `a0*x[i] + a1*x[i-1] + a2*x[i-2] - b1*y[i-1] - b2*y[i-2]`, with zeros before the start |
| DirectForm.Df1Characterized | python/util_functions.py:214-219 | a sequence obeys the recurrence at every index (from zero registers) if and only if it is `Df1`'s output |
| DirectForm.Df1Step | python/util_functions.py:214-219 | one loop step (compute from the registers, shift y, store y, shift x, store x) extends the output prefix and leaves the registers at the last two inputs and outputs |
| DirectForm.Df1Linear | python/algo_dsp_filters.py:91-97 | scaling the input by g scales the output by g |
| DirectForm.Df1ZeroInput | python/algo_dsp_filters.py:91-97 | an all-zero input gives an all-zero output, whatever the gains |
| DirectForm.Df1Identity | python/util_functions.py:214-219 | gains with `a0 = 1`, `a1 = b1`, `a2 = b2` return the input unchanged |
| DirectForm.Df1SteadyDc | python/util_functions.py:214-219 | with DC gain g, a constant input u held in the registers keeps producing g*u |
| DirectForm.Df1SteadyNyquist | python/util_functions.py:214-219 | with Nyquist gain g, the alternating input u, -u, ... keeps producing g*u, -g*u, ... |
| Filters.OneZeroFilter | python/algo_dsp_filters.py:10-20 | the appended outputs are exactly `Df1` of the gains (a0, a1, 0, 0, 0) |
| Filters.OneZeroAt | python/algo_dsp_filters.py:10-20 | same length; `out[0] = a0*x[0]` and `out[i] = a0*x[i] + a1*x[i-1]` |
| Filters.OnePoleFilter | python/algo_dsp_filters.py:23-33 | the appended outputs are exactly `Df1` of the gains (a0, 0, 0, b1, 0) |
| Filters.OnePoleAt | python/algo_dsp_filters.py:23-33 | same length; `out[i] = a0*x[i] - b1*out[i-1]`, with the previous output 0 at i = 0 |
| Filters.SimpleResonator | python/algo_dsp_filters.py:47-64 | the array written in place is exactly `Df1` of the gains (a0, 0, 0, b1, b2), from zero registers; the copy at python/util_functions.py:148-165 is the same code |
| Filters.ResonatorAt | python/algo_dsp_filters.py:59-62 | `y[i] = a0*x[i] - b1*y[i-1] - b2*y[i-2]` |
| Filters.LowpassCoefficients | python/algo_dsp_filters.py:75-89 | the kLPF2 gains have `a1 = 2*a0` and `a2 = a0`, a double zero at Nyquist and unit DC gain, for any sine and cosine of the corner angle |
| Filters.SecondOrderLowpass | python/algo_dsp_filters.py:67-98 | with the source's `d0 = 0` and `c0 = 1`, the array written in place is exactly `Df1` of the kLPF2 gains; the copy at python/util_functions.py:168-199 is the same code |
| Filters.BiQuad | python/algo_dsp_filters.py:101-121 | the output is `Df1` of the gains with 1 added to a0, which accounts for the extra `signal[i]` term |
| Filters.BiQuadAt | python/algo_dsp_filters.py:113-119 | same length; `out[i] = x[i] + a0*x[i] + a1*x[i-1] + a2*x[i-2] - b1*out[i-1] - b2*out[i-2]` |
| Filters.BiQuadZeroGainsCopy | python/algo_dsp_filters.py:114-115 | because of the extra term, all-zero gains copy the input instead of silencing it |
| Filters.DcBlocker.constructor | python/algo_dsp_filters.py:136-140 | a new blocker has pole 0.995, `x1 = y1 = 0` and an empty output history |
| Filters.DcBlocker.Reset | python/algo_dsp_filters.py:145-149 | reset restores the same state as a new blocker, pole included |
| Filters.DcBlocker.SetPole | python/algo_dsp_filters.py:151-152 | only the pole changes |
| Filters.DcBlocker.Process | python/algo_dsp_filters.py:154-161 | the new state is the old one fed the input sample by sample through `y = x - x1 + pole*y1`, and the returned list is the whole accumulated history |
| Filters.ProcessedShape | python/algo_dsp_filters.py:155-159 | processing keeps the pole and the old history, appends one output per input, and leaves x1 and y1 at the last input and output |
| Filters.ProcessedConcat | python/algo_dsp_filters.py:154-161 | processing S1 and then S2 gives the same state as processing `S1 + S2` |
| Filters.ProcessedIsDf1 | python/algo_dsp_filters.py:155-159 | the appended outputs are the direct-form-I response of the gains (1, -1, 0, -pole, 0) from the stored registers |
| Filters.DcBlockerAt | python/algo_dsp_filters.py:155-159 | from a fresh state, `out[i] = x[i] - x[i-1] + pole*out[i-1]` |
| Filters.ChunkedMatchesWhole | python/algo_dsp_filters.py:154-161 | two new blockers, one fed S1 then S2 and one fed `S1 + S2`, end in equal states |
| UtilFunctions.FirstOrderFeedForward | python/util_functions.py:121-124 | equation 9.1 is one direct-form-I step with the one-zero gains (a0, a1, 0, 0, 0), whatever the unused registers hold |
| UtilFunctions.FirstOrderFeedback | python/util_functions.py:127-130 | equation 9.2 is one direct-form-I step with the one-pole gains (a0, 0, 0, b1, 0), whatever the unused registers hold |
| UtilFunctions.FeedForwardIsOneZero | python/util_functions.py:121-124 | every one-zero output sample is `first_order_feed_forward` of the current and previous inputs |
| UtilFunctions.FeedbackIsOnePole | python/util_functions.py:127-130 | every one-pole output sample is `first_order_feedback` of the current input and the previous output |
| UtilFunctions.Silence | python/util_functions.py:207 | the zeros `out` starts as: n samples, each 0 |
| UtilFunctions.BiQuadAsWritten | python/util_functions.py:202-221 | the result is all zeros with the input's length, whatever the gains |
| UtilFunctions.BiQuadCorrected | python/util_functions.py:202-221 | with the computed sample stored, the output is exactly `Df1` of params |
| UtilFunctions.BiQuadDropsOutput | python/util_functions.py:214-221 | for the pass-through gains (1, 0, 0, 0, 0), any input with a nonzero sample has an intended output that differs from zeros |
| UtilFunctions.BiQuadDropsImpulse | python/util_functions.py:214-221 | on the impulse input, the intended output has 1 at index 1 and the as-written one has 0 |
| BiquadDesign.Design | python/util_functions.py:244-395 | a kind outside 1..15 takes no branch and leaves all five coefficients 0 |
| BiquadDesign.BiQuadCoeffs | python/util_functions.py:224-407 | the result is a coefficient list exactly for kinds 1..15; any other kind is a `KeyError` naming that kind |
| BiquadDesign.UnknownKindFails | python/util_functions.py:244-397 | an unknown kind is `KeyError(kind)` |
| BiquadDesign.SharedPoleShapes | python/util_functions.py:280-389 | LP: `a1 = 2a0`, `a2 = a0`. HP: `a1 = -2a0`, `a2 = a0`. BP: `a1 = 0`, `a2 = -a0`. Notch: `a2 = a0`, `b1 = a1`. Allpass (kind 14): `a2 = 1`, `b1 = a1`, `b2 = a0`. All five share b1 and b2 |
| BiquadDesign.FirstOrderShapes | python/util_functions.py:252-395 | kinds 1, 2, 3, 4, 12, 13 and 15 have `a2 = b2 = 0`; kind 1 has `a0 = 1 + b1`, kind 2 has `a0 = 1 - b1`, and kind 15 has `a1 = -1` and `b1 = -a0` |
| BiquadDesign.PeakSharesB1 | python/util_functions.py:308-322 | kind 9 has `b1 = a1 = 2(k*k - 1)*norm` in both branches, norm being the reciprocal of the branch's leading denominator term |
| BiquadDesign.PeakZeroGainIsIdentity | python/util_functions.py:309-315 | at peak_gain 0 (v = 1) kind 9 has `a0 = 1`, `a1 = b1`, `a2 = b2` and returns its input unchanged |
| BiquadDesign.BoostCutInverse | python/util_functions.py:308-382 | for kinds 9 to 13 the cut section is the inverse of the boost section: each branch's numerator is the other's denominator, and each is normalised by its own leading term |
| BiquadDesign.SwappedInverse | python/util_functions.py:308-382 | two normalised sections with numerator and denominator swapped are each other's inverse |
| BiquadDesign.DesignIsPeak | python/util_functions.py:308-322 | kind 9 is the peak section of the branch `peak_gain >= 0` selects |
| BiquadDesign.DesignIsLowShelf | python/util_functions.py:323-337 | kind 10 is the low shelf of the branch `peak_gain >= 0` selects |
| BiquadDesign.DesignIsHighShelf | python/util_functions.py:338-352 | kind 11 is the high shelf of the branch `peak_gain >= 0` selects |
| BiquadDesign.PeakB1 | python/util_functions.py:308-322 | in either peak branch `b1 = a1 = 2(k*k - 1)*norm` |
| BiquadDesign.PeakInverse | python/util_functions.py:308-322 | the peak cut section is the inverse of the boost section |
| BiquadDesign.LowShelfInverse | python/util_functions.py:323-337 | the low-shelf cut section is the inverse of the boost section, whatever sqrt_two and sqrt_v are |
| BiquadDesign.HighShelfInverse | python/util_functions.py:338-352 | the high-shelf cut section is the inverse of the boost section, whatever sqrt_two and sqrt_v are |
| BiquadDesign.FirstOrderShelfInverse | python/util_functions.py:353-382 | for kinds 12 and 13 the cut section is the inverse of the boost section |
| BiquadDesign.NormOf | python/util_functions.py:281-286 | dividing by the leading denominator term is multiplying numerator and trailing denominator terms by `norm = 1/d0` |
| BiquadDesign.DcGainOf | python/util_functions.py:281-286 | if the numerator sums to g times the denominator, the normalised section has DC gain g |
| BiquadDesign.NyquistGainOf | python/util_functions.py:281-286 | if the alternating sums satisfy the same relation, the normalised section has Nyquist gain g |
| BiquadDesign.DcCutOf | python/util_functions.py:316-322 | if g times the numerator sum is the denominator sum, the normalised section divides DC by g |
| BiquadDesign.NyquistCutOf | python/util_functions.py:316-322 | the same at Nyquist |
| BiquadDesign.InverseOf | python/util_functions.py:308-382 | sections `n*nb / d*nb` and `d*nc / n*nc` with `nb*d0 = nc*n0 = 1` are each other's inverse |
| BiquadDesign.FirstOrderForms | python/util_functions.py:266-279 | kinds 3 and 4 are the normalised sections (1 + z⁻¹)/((1/k + 1) + (1 - 1/k)z⁻¹) and (1 - z⁻¹)/((k + 1) + (k - 1)z⁻¹) |
| BiquadDesign.SharedPoleForms | python/util_functions.py:280-389 | LP, HP, BP, notch and allpass (kind 14) are their numerators over the shared denominator 1 + k/q + k*k, 2(k*k - 1), 1 - k/q + k*k; the allpass numerator is that denominator reversed |
| BiquadDesign.LowpassGains | python/util_functions.py:280-286 | the LP section has unit DC gain and a zero at Nyquist |
| BiquadDesign.HighpassGains | python/util_functions.py:287-293 | the HP section has unit Nyquist gain and a zero at DC |
| BiquadDesign.BandpassGains | python/util_functions.py:294-300 | the BP section has zeros at DC and at Nyquist |
| BiquadDesign.NotchGains | python/util_functions.py:301-307 | the notch has unit gain at DC and at Nyquist |
| BiquadDesign.AllpassGains | python/util_functions.py:383-389 | the allpass has unit gain at DC and at Nyquist |
| BiquadDesign.PeakGainsAt | python/util_functions.py:308-322 | either peak branch has unit gain at DC and at Nyquist |
| BiquadDesign.LowShelfBoostGains | python/util_functions.py:324-330 | the boosting low shelf has DC gain v and unit Nyquist gain |
| BiquadDesign.LowShelfCutGains | python/util_functions.py:331-337 | the cutting low shelf divides DC by v and has unit Nyquist gain |
| BiquadDesign.HighShelfBoostGains | python/util_functions.py:339-345 | the boosting high shelf has Nyquist gain v and unit DC gain |
| BiquadDesign.HighShelfCutGains | python/util_functions.py:346-352 | the cutting high shelf divides Nyquist by v and has unit DC gain |
| BiquadDesign.LowShelf1stGains | python/util_functions.py:353-367 | the first-order low shelf multiplies (boost) or divides (cut) DC by v and passes Nyquist |
| BiquadDesign.HighShelf1stGains | python/util_functions.py:368-382 | the first-order high shelf multiplies or divides Nyquist by v and passes DC |
| BiquadDesign.FirstOrderLowpassGains | python/util_functions.py:252-272 | kinds 1 and 3 pass DC with unit gain, and kind 3 has a zero at Nyquist |
| BiquadDesign.FirstOrderHighpassGains | python/util_functions.py:259-279 | kinds 2 and 4 pass Nyquist with unit gain, and kind 4 has a zero at DC |
| BiquadDesign.SharedPoleGains | python/util_functions.py:280-389 | LP: unit DC gain and a zero at Nyquist. HP: the reverse. BP: zeros at both. Notch and allpass (kind 14): unit gain at both |
| BiquadDesign.PeakGains | python/util_functions.py:308-322 | the peak filter has unit gain at DC and at Nyquist, boost or cut |
| BiquadDesign.LowShelfKindGains | python/util_functions.py:323-337 | the low shelf has unit Nyquist gain; its DC gain is v when boosting and 1/v when cutting (`v*H(1) = 1`), for any value of sqrt_two |
| BiquadDesign.HighShelfKindGains | python/util_functions.py:338-352 | the high shelf has unit DC gain; its Nyquist gain is v when boosting and 1/v when cutting |
| BiquadDesign.FirstOrderShelfGains | python/util_functions.py:353-382 | kind 12 scales DC by v or 1/v with unit Nyquist gain; kind 13 scales Nyquist likewise with unit DC gain |
| BiquadDesign.FirstOrderAllpassGains | python/util_functions.py:390-395 | kind 15 inverts DC (gain -1) and passes Nyquist (gain 1) |
| BiquadDesign.LowpassHoldsDc | python/util_functions.py:280-286 | a constant input that has settled stays unchanged through the kind-5 low-pass |
| BiquadDesign.ShelfZeroGainAsWritten | python/util_functions.py:249-250 | with sqrt_two = 2**2 and sqrt_v = 2**v, a 0 dB low shelf at k = 1 has coefficients (2/3, 0, 0, 0, -1/3) |
| BiquadDesign.ShelfZeroGainImpulse | python/util_functions.py:323-330 | that section turns the impulse 1, 0, 0 into 2/3, 0, 2/9, so it is not the identity |
| BiquadDesign.ShelfZeroGainIntended | python/util_functions.py:323-352 | with sqrt_two = √2 and sqrt_v = √(2v), a 0 dB shelf of kind 10 or 11 is the identity section |
| WpInputs.ConstantShapes | python/inpt_wp_inputs.py:9-13 | the five constants have 8 samples; impulse has its 1 at index 1; dc is 0 then 1; nyquist starts at -1 |
| WpInputs.GeneratedPrefixes | python/inpt_wp_inputs.py:9-72 | the first 8 samples of half_nyq, qtr_nyq, impls and step are halfNyquist, quarterNyquist, impulse and dc; nyq is nyquist negated |
| WpInputs.Nyq | python/inpt_wp_inputs.py:23-27 | 500 samples, +1 at even and -1 at odd indices; the copies at python/util_signals.py:10-14 and python/util_functions.py:12-16 are the same code |
| WpInputs.HalfNyq | python/inpt_wp_inputs.py:30-38 | 500 samples, element i being `[0, 1, 0, -1][i mod 4]`; the copies at python/util_signals.py:17-25 and python/util_functions.py:19-27 are the same code |
| WpInputs.QtrNyq | python/inpt_wp_inputs.py:41-58 | 500 samples, element i being the 8-sample quarter-Nyquist period at i mod 8, including the 4-sample tail; the copies at python/util_signals.py:28-45 and python/util_functions.py:30-47 are the same code |
| WpInputs.Impls | python/inpt_wp_inputs.py:61-65 | 500 samples, 0 except a 1 at index 1; the copies at python/util_signals.py:48-52 and python/util_functions.py:50-54 are the same code |
| WpInputs.Step | python/inpt_wp_inputs.py:68-72 | 500 samples, 1 except a 0 at index 0; the copies at python/util_signals.py:55-59 and python/util_functions.py:57-61 are the same code |
| GoldenVectors.OneZeroDc | python/test_dsp_filters_wp.py:18-20 | one_zero_filter(dc, 0.5, 0.5) is [0, 0.5, 1, 1, 1, 1, 1, 1] |
| GoldenVectors.OneZeroNyquist | python/test_dsp_filters_wp.py:22-24 | one_zero_filter(nyquist, 0.5, 0.5) is [-0.5, 0, 0, 0, 0, 0, 0, 0] |
| GoldenVectors.OneZeroHalfNyquist | python/test_dsp_filters_wp.py:26-28 | one_zero_filter(halfNyquist, 0.5, 0.5) is [0, 0.5, 0.5, -0.5, -0.5, 0.5, 0.5, -0.5] |
| GoldenVectors.OneZeroImpulse | python/test_dsp_filters_wp.py:35-37 | one_zero_filter(impulse, 0.5, 0.5) is [0, 0.5, 0.5, 0, 0, 0, 0, 0] |
| GoldenVectors.OnePoleDc | python/test_dsp_filters_wp.py:42-44 | one_pole_filter(dc, 0.5, 0.5) is [0, 0.5, 0.25, 0.375, 0.3125, 0.34375, 0.328125, 0.3359375] |
| GoldenVectors.OnePoleNyquist | python/test_dsp_filters_wp.py:46-48 | one_pole_filter(nyquist, 0.5, 0.5) is [-0.5, 0.75, -0.875, 0.9375, -0.96875, 0.984375, -0.9921875, 0.99609375] |
| GoldenVectors.OnePoleHalfNyquist | python/test_dsp_filters_wp.py:50-52 | one_pole_filter(halfNyquist, 0.5, 0.5) is [0, 0.5, -0.25, -0.375, 0.1875, 0.40625, -0.203125, -0.3984375] |
| GoldenVectors.OnePoleImpulse | python/test_dsp_filters_wp.py:59-61 | one_pole_filter(impulse, 0.5, 0.5) is [0, 0.5, -0.25, 0.125, -0.0625, 0.03125, -0.015625, 0.0078125] |
| GoldenVectors.TestOneZeroDc | python/test_dsp_filters_wp.py:18-20 | the loop run on dc returns the expected list |
| GoldenVectors.TestOneZeroNyquist | python/test_dsp_filters_wp.py:22-24 | the loop run on nyquist returns the expected list |
| GoldenVectors.TestOneZeroHalfNyquist | python/test_dsp_filters_wp.py:26-28 | the loop run on halfNyquist returns the expected list |
| GoldenVectors.TestOneZeroImpulse | python/test_dsp_filters_wp.py:35-37 | the loop run on impulse returns the expected list |
| GoldenVectors.TestOnePoleDc | python/test_dsp_filters_wp.py:42-44 | the loop run on dc returns the expected list |
| GoldenVectors.TestOnePoleNyquist | python/test_dsp_filters_wp.py:46-48 | the loop run on nyquist returns the expected list |
| GoldenVectors.TestOnePoleHalfNyquist | python/test_dsp_filters_wp.py:50-52 | the loop run on halfNyquist returns the expected list |
| GoldenVectors.TestOnePoleImpulse | python/test_dsp_filters_wp.py:59-61 | the loop run on impulse returns the expected list |

## Left out

- Transcendentals are inputs, because `real` arithmetic cannot evaluate them:
  - `np.tan`, `np.power`, `2 ** v` and `np.exp` in `bi_quad_coeffs` become the `Prelude` argument;
  - `np.sin`/`np.cos` of the low-pass become `sinTheta` and `cosTheta`;
  - the exponential, cosine and square root of the resonator become its gains a0, b1, b2;
  - `fc`, `fs` and the parameter `q` survive only where the arithmetic uses them.
- Floating point: the model computes over exact reals. The quarter-Nyquist golden tests, which assert rounding artefacts such as 0.8534999999999999, are not modelled.
- Division by zero is not modelled, in either of its source forms: with a plain Python `q`, `1.0 / q` (python/algo_dsp_filters.py:76) and `1 / q * k` (python/util_functions.py:310) raise `ZeroDivisionError`; with a numpy `k`, `k / q` (python/util_functions.py:281) and the `norm` divisions give IEEE infinities or NaN. The preconditions exclude both the exception and the inf/NaN results: `Defined` on every `norm` division of `bi_quad_coeffs`, and `q != 0` with a nonzero `1 + (1/q/2)*sin(theta)` on Filters.LowpassCoefficients and Filters.SecondOrderLowpass.
- Frequency-response claims beyond the gains at DC and at Nyquist, such as the allpass having unit magnitude at every frequency, are not modelled, because they need complex exponentials.
- Console output: the `print` calls of `bi_quad_coeffs` are not modelled. `simple_resonator_coeffs` / `simple_resonator_coefficients` only print or return the resonator's transcendental derivation; they are not part of this model.
- `DcBlocker.__str__` is formatting only.
- Aliasing: `DcBlocker.process` returns the blocker's own list object, which later calls keep mutating. The model returns the history as a value.
- Inputs are `seq<real>`. numpy array shapes other than one-dimensional are not modelled, and neither are parameter lists shorter than five or a kind passed as a string.
- BiquadDesign.Peak, BiquadDesign.LowShelf, BiquadDesign.HighShelf, BiquadDesign.LowShelf1st, BiquadDesign.HighShelf1st: each is written as the branch's numerator and denominator divided by the leading denominator term (`Normalise`). This is the source's `norm` arithmetic, grouped.
- Not part of this model:
  - plotting (`print_signal_function_output`, `python/util_plotting.py`);
  - the waveform generators (`wv_*`, `python/util_waveforms.py`);
  - the WAV script `python/util_wave_files.py`;
  - the commented-out `python/algo_dsp_wavetables.py`;
  - `inc/constants.hpp`;
  - `python/test_dsp_filters.py`, whose expected output is imported from `hope_dsp_filters`.

## Findings

| source | as written | input that shows it | evidently intended | confidence | as-written member | corrected member |
|---|---|---|---|---|---|---|
| python/util_functions.py:214-221 | the loop computes `yn` and shifts the registers but never writes `out[i]`, so `bi_quad` returns zeros | gains [1, 0, 0, 0, 0] on the impulse input: intended output 1 at index 1, returned 0 | `out[i] = yn`, the direct-form-I section with the given gains | high (not executed) | UtilFunctions.BiQuadAsWritten, UtilFunctions.BiQuadDropsImpulse | UtilFunctions.BiQuadCorrected |
| python/util_functions.py:249-250 | `sqrt_two = 2 ** 2` is 4 and `sqrt_v = 2 ** v` is 2 at v = 1 | kind 10, peak_gain 0 (v = 1), k = 1: coefficients (2/3, 0, 0, 0, -1/3), impulse response 2/3, 0, 2/9 | `sqrt(2)` and `sqrt(2*v)`, the shelving formulas the code follows, which make a 0 dB shelf flat | high (not executed) | BiquadDesign.ShelfZeroGainAsWritten, BiquadDesign.ShelfZeroGainImpulse | BiquadDesign.ShelfZeroGainIntended |

`BiQuadCoeffs` keeps the constants as written. `Design` takes `sqrt_two` and
the prelude's `sqrt_v` as parameters, so the intended values can be examined.
The gain and inversion lemmas hold for any value of those constants.
