# ResonantLowPassFilter in Dafny

A model of `AudioKitCore::ResonantLowPassFilter`, AudioKit's single-channel
second-order resonant low-pass filter. The filter holds a sample rate, the
memoised cutoff and resonance of its last coefficient computation, two past
inputs (`x1`, `x2`), two past outputs (`y1`, `y2`) and five recursion
coefficients (`a0`, `a1`, `a2`, `b1`, `b2`). It offers `init(sampleRate)`,
`setParams(cutoffHz, resonanceDb)`, `process(sample)` and
`process(source, dest, frames)`.

Samples and coefficients are `real`. `sin`, `cos`, `pow`, `isnan`, and the value
of a double divided by zero, are fields of a `MathLib.Libm` record of functions.
Every property below therefore holds whatever those functions return. The
properties are about structure: clamping, memoisation, the coefficient recipe,
the history shift, and block processing.

Files:

- `libm.dfy` (`MathLib`): the math-library stand-ins, `M_PI`, and division with
  an uninterpreted result for a zero divisor.
- `lowpass.dfy` (`LowPass`): the state as a value, with `Init`, `Construct`,
  the clamps, `NormalisedCutoff`, `Design`, `SetParams`, `Step` and the block
  fold `Run`.
- `params.dfy` (`LowPassParams`): idempotence, clamp-equivalence and a
  characterisation of the coefficient recipe.
- `block.dfy` (`LowPassBlock`): block lemmas (continuity across calls, output i
  is the i-th step, taps hold the last two samples, silence in and silence out).
  It also holds the block loop over separate buffers and over one buffer
  overwritten in place.
- `instance.dfy` (`LowPassObject`): the C++ class as a Dafny class with mutable
  fields. Each method is tied to the functional model. The block method works on
  arrays that may alias.
- `fixes.dfy` (`LowPassFixes`): the two findings below, as written and corrected.

The main model follows the code as written. The corrected versions of the
findings live only in `LowPassFixes`.

The code's own comments promise slightly more than the code does. The model
follows the code:

- Line 44 says the coefficients are calculated "only ... if the parameters have
  changed from last time". Lines 55-56 memoise the clamped values, not the
  arguments. So an out-of-range call such as `setParams(5.0, 0.0)` repeated
  recomputes every time (`RepeatIsFastOnlyInRange`), to the same result
  (`SetParamsIdempotent`).
- Line 35 says "initialize filter state". Line 36 clears only three of the four
  history taps (finding 1).
- Line 38 says "force filter coefficient calculation". The sentinel stored at
  line 39 can be matched by a caller (finding 2).

## Model

| member | source | states |
|---|---|---|
| MathLib.Quot | AudioKit/Core/AudioKitCore/Common/ResonantLowPassFilter.cpp:61 | The double quotient: for a non-zero divisor, quotient times divisor gives back the numerator. For a zero divisor, the library's value for `n / 0`. |
| LowPass.Init | AudioKit/Core/AudioKitCore/Common/ResonantLowPassFilter.cpp:31-40 | `init` stores the sample rate and zeroes x1, x2 and y1. It leaves y2 as it was, because line 36 assigns y1 twice. It sets both memo fields to -1.0 and keeps the coefficients. |
| LowPass.Construct | AudioKit/Core/AudioKitCore/Common/ResonantLowPassFilter.cpp:26-29 | The constructor leaves the filter at 44100 Hz with x1, x2 and y1 zero and the sentinel memo. y2 and the coefficients are whatever the members held. |
| LowPass.ClampCutoff | AudioKit/Core/AudioKitCore/Common/ResonantLowPassFilter.cpp:47 | The cutoff used is at least 12 Hz. It equals the input when the input is at least 12. |
| LowPass.ClampResonance | AudioKit/Core/AudioKitCore/Common/ResonantLowPassFilter.cpp:48-49 | The resonance used lies in [-20, 20]. It is the input when the input is in range, and the nearer bound otherwise. |
| LowPass.NormalisedCutoff | AudioKit/Core/AudioKitCore/Common/ResonantLowPassFilter.cpp:52-53 | The normalised cutoff never exceeds 0.99. For a positive rate it is positive, and it equals 2*cutoffHz/rate unless that exceeds 0.99. |
| LowPass.Design | AudioKit/Core/AudioKitCore/Common/ResonantLowPassFilter.cpp:58-69 | For any sin/cos/pow: a2 == a0 and a1 == 2*a0. The gain at DC is one (a0+a1+a2 == 1+b1+b2). b1 == -(1+b2)*cos(pi*cutoff). b2*(1+k) == 1-k, and at k == -1, b2 is twice the library's 1/0. |
| LowPass.Recompute | AudioKit/Core/AudioKitCore/Common/ResonantLowPassFilter.cpp:47-69 | The slow path memoises the clamped cutoff and resonance and writes all five coefficients from them. The result is `Ready`. Taps and sample rate are unchanged. |
| LowPass.SetParams | AudioKit/Core/AudioKitCore/Common/ResonantLowPassFilter.cpp:42-70 | Taps and sample rate never change. When both arguments equal the memo, nothing changes. Otherwise the memo holds the clamped values (cutoff >= 12, resonance in [-20, 20]) and the coefficients match them. The coefficients are either all old or all new. `Ready` is preserved. |
| LowPass.FastPath | AudioKit/Core/AudioKitCore/Common/ResonantLowPassFilter.cpp:45 | The fast-path test: both arguments equal the memoised values. `SetParams` takes the early return of line 45 exactly on this test, and then returns its input unchanged. A recomputation can still reproduce its input (see `RepeatIsFastOnlyInRange`). |
| LowPass.LinearResonance | AudioKit/Core/AudioKitCore/Common/ResonantLowPassFilter.cpp:58 | The resonance in dB turned into a linear factor, `pow(10, 0.05 * -dB)`, with the sign inverted as at line 58. |
| LowPass.Damping | AudioKit/Core/AudioKitCore/Common/ResonantLowPassFilter.cpp:60 | The intermediate k = 0.5 * r * sin(pi * cutoff). `Design`'s contract is stated in terms of it. |
| LowPass.RawOutput | AudioKit/Core/AudioKitCore/Common/ResonantLowPassFilter.cpp:89-91 | The recurrence a0*in + a1*x1 + a2*x2 - b1*y1 - b2*y2 before the NaN guard, as on lines 77 and 91. What the filter does with it is stated by `LowPass.Step` and the `Process` methods. |
| LowPass.Step | AudioKit/Core/AudioKitCore/Common/ResonantLowPassFilter.cpp:89-100 | The output is a0*in + a1*x1 + a2*x2 - b1*y1 - b2*y2, or 0 when that is NaN. The history shifts (x2'=x1, x1'=in, y2'=y1, y1'=output) and nothing else changes. |
| LowPass.Run | AudioKit/Core/AudioKitCore/Common/ResonantLowPassFilter.cpp:72-87 | A block yields one output per input. It changes only the taps. |
| LowPassBlock.RawOutputSplits | AudioKit/Core/AudioKitCore/Common/ResonantLowPassFilter.cpp:91 | The raw output is a0*in plus the zero-input response of the history. This is a direct consequence of the sum being linear, not a partner property. |
| LowPassBlock.RunSnoc | AudioKit/Core/AudioKitCore/Common/ResonantLowPassFilter.cpp:74-86 | One more frame appends the single-sample step's output and moves to that step's state. |
| LowPassBlock.RunAppend | AudioKit/Core/AudioKitCore/Common/ResonantLowPassFilter.cpp:72-87 | Continuity across calls: a block over a+b equals a block over a, then a block over b from the state a left. |
| LowPassBlock.RunOutputIsStep | AudioKit/Core/AudioKitCore/Common/ResonantLowPassFilter.cpp:74-86 | Output i of a block is the single-sample step on sample i from the state after the first i samples. |
| LowPassBlock.RunTapsHoldLastTwo | AudioKit/Core/AudioKitCore/Common/ResonantLowPassFilter.cpp:80-83 | After at least two frames the taps are the last two inputs and the last two outputs. |
| LowPassBlock.SilenceInSilenceOut | AudioKit/Core/AudioKitCore/Common/ResonantLowPassFilter.cpp:77-83 | From zero taps, zero inputs give zero outputs and keep the taps zero, for any coefficients. |
| LowPassBlock.ProcessBuffers | AudioKit/Core/AudioKitCore/Common/ResonantLowPassFilter.cpp:72-87 | Value-level version of the class's `ProcessBlock` with separate buffers: dest[0..frames) receives the block's outputs and the rest of dest is untouched. The final state is the frames-fold step. |
| LowPassBlock.ProcessInPlace | AudioKit/Core/AudioKitCore/Common/ResonantLowPassFilter.cpp:72-87 | Value-level version of the class's `ProcessBlock` with dest == source, where the loop reads the buffer it is rewriting: the buffer receives the outputs of the block over its original contents. Frames past the count are untouched. |
| LowPassParams.SetParamsIdempotent | AudioKit/Core/AudioKitCore/Common/ResonantLowPassFilter.cpp:45-69 | Calling setParams(c, r) twice leaves the same state as calling it once. |
| LowPassParams.SetParamsSeesOnlyClamped | AudioKit/Core/AudioKitCore/Common/ResonantLowPassFilter.cpp:47-49 | Arguments with equal clamped values give the same state, e.g. (5, 0) and (12, 0), or (1000, 100) and (1000, 20). This holds from any state whose coefficients are current, and from any state where neither call takes the fast path. The only exception is a fast-path hit on a memo the coefficients do not match, i.e. the sentinel pair straight after `init`. |
| LowPassParams.RepeatIsFastOnlyInRange | AudioKit/Core/AudioKitCore/Common/ResonantLowPassFilter.cpp:45-56 | After a call that recomputes, repeating it takes the fast path exactly when the cutoff is at least 12 and the resonance lies in [-20, 20], because the memo holds clamped values. |
| LowPassParams.DesignCharacterised | AudioKit/Core/AudioKitCore/Common/ResonantLowPassFilter.cpp:60-69 | The structural equations of the recipe determine all five coefficients whenever 1+k != 0. |
| LowPassObject.ResonantLowPassFilter.constructor | AudioKit/Core/AudioKitCore/Common/ResonantLowPassFilter.cpp:26-29 | The fields after construction: ensures State() == LowPass.Construct(before). |
| LowPassObject.ResonantLowPassFilter.Init | AudioKit/Core/AudioKitCore/Common/ResonantLowPassFilter.cpp:31-40 | Statement by statement, with line 36's double assignment to y1: ensures State() == LowPass.Init(old(State()), sampleRateHz). |
| LowPassObject.ResonantLowPassFilter.SetParams | AudioKit/Core/AudioKitCore/Common/ResonantLowPassFilter.cpp:42-70 | Fast path, clamps, ceiling, memo and coefficients in the order of lines 45-69: ensures State() == LowPass.SetParams(libm, old(State()), newCutoffHz, newResonanceDb). |
| LowPassObject.ResonantLowPassFilter.Coefficients | AudioKit/Core/AudioKitCore/Common/ResonantLowPassFilter.cpp:58-69 | The statements of lines 58-69 produce exactly the coefficients of `LowPass.Design`, whose contract gives their structure. |
| LowPassObject.ResonantLowPassFilter.Process | AudioKit/Core/AudioKitCore/Common/ResonantLowPassFilter.cpp:89-100 | Recurrence, NaN guard and history shift on the fields: ensures Stepped(State(), outputSample) == LowPass.Step(libm, old(State()), inputSample). |
| LowPassObject.ResonantLowPassFilter.ProcessBlock | AudioKit/Core/AudioKitCore/Common/ResonantLowPassFilter.cpp:72-87 | On the class's fields and arrays that may be the same: the fields end as the frames-fold step. dest[0..frames) holds the block's outputs over the source's original contents, and the rest of dest is unchanged. |
| LowPassObject.BlockMatchesSamples | AudioKit/Core/AudioKitCore/Common/ResonantLowPassFilter.cpp:72-100 | Block/sample equivalence for any number of samples and from any state: of two filters in the same state, one running an in-place block call and the other calling `Process` on each sample in turn, both write the same outputs and end in the same state, namely the block fold's. |
| LowPassFixes.InitRemembersY2 | AudioKit/Core/AudioKitCore/Common/ResonantLowPassFilter.cpp:36 | As written: two filters that differ only in y2 give different first outputs after init, when b2 != 0 and no NaN occurs. |
| LowPassFixes.InitClearingTaps | AudioKit/Core/AudioKitCore/Common/ResonantLowPassFilter.cpp:31-40 | Corrected init: all four taps are zero. The result depends only on the rate and the coefficients. |
| LowPassFixes.ReinitForgetsHistory | AudioKit/Core/AudioKitCore/Common/ResonantLowPassFilter.cpp:35-36 | After the corrected init, a block is processed the same whatever the filter saw before. |
| LowPassFixes.SentinelSkipsRecompute | AudioKit/Core/AudioKitCore/Common/ResonantLowPassFilter.cpp:39-45 | As written: setParams(-1, -1) straight after init changes nothing, so the coefficients are those from before init. When those differ from the coefficients for 12 Hz and -1 dB at the current rate, they also differ from what the same call computes without the fast path. |
| LowPassFixes.InitTracked | AudioKit/Core/AudioKitCore/Common/ResonantLowPassFilter.cpp:31-40 | Corrected init: the coefficients are flagged stale, the rate is stored, and all four taps are zero. |
| LowPassFixes.SetParamsTracked | AudioKit/Core/AudioKitCore/Common/ResonantLowPassFilter.cpp:42-70 | Corrected setParams with a "coefficients current" flag. The result is always flagged current. A call on a stale state always recomputes. From a consistent state (flagged current only when the coefficients match the memo) the result equals a full recomputation and so is consistent. Every state the corrected init, setParams and process produce is consistent (`InitTrackedIsConsistent`, `TrackedStaysConsistent`). |
| LowPassFixes.TrackedStaysConsistent | AudioKit/Core/AudioKitCore/Common/ResonantLowPassFilter.cpp:31-99 | Flag consistency is an invariant: the corrected init, setParams and single-sample step each keep it. |
| LowPassFixes.InitTrackedIsConsistent | AudioKit/Core/AudioKitCore/Common/ResonantLowPassFilter.cpp:31-40 | The corrected init establishes flag consistency from any state, because it flags the coefficients stale. |
| LowPassFixes.InitThenSetParamsIsReady | AudioKit/Core/AudioKitCore/Common/ResonantLowPassFilter.cpp:38-39 | With the flag, init then any setParams, (-1, -1) included, is a full recomputation, as line 38 intends: the memo holds the clamped cutoff and the clamped resonance, and the coefficients match them. |
| LowPassFixes.SetParamsTrackedIdempotent | AudioKit/Core/AudioKitCore/Common/ResonantLowPassFilter.cpp:45-69 | The corrected setParams is still idempotent. |

## Left out

- IEEE-754 rounding, the `(float)` narrowing of each output and the `float` width of samples: values are unbounded reals.
- NaN and infinities: `isnan` is an uninterpreted predicate on reals. A double divided by zero is an uninterpreted value (`Libm.overZero`). With a zero sample rate, the normalised cutoff is taken as 0.99, because the double quotient 2*cutoff/0 is +infinity and gets clipped. A NaN argument to `setParams`, which never compares equal and so never takes the fast path, is not representable.
- The values of `sin`, `cos` and `pow`, and any claim about frequency response, stability or the size of the resonance peak: these rest on transcendental floating-point maths.
- `ResonantLowPassFilter.hpp` is not part of this model. What the members hold before the constructor's `init` is a parameter (`before`): whatever the members held. The header is not modelled.
- Raw pointer arithmetic: buffers are Dafny arrays or sequences. Only identical or disjoint source and destination buffers are modelled. Partly overlapping buffers are not: with `destP == sourceP + 1`, the loop at lines 76 and 85 would read its own previous output, and two Dafny arrays cannot overlap that way. A negative frame count, which the C++ loop would count down through until signed overflow, is excluded by a precondition.
- Thread-safety and real-time bounds: nothing in the code enforces them.
- LowPassObject.ResonantLowPassFilter.SetParams: lines 58-69 are a helper method `Coefficients` rather than written inline. It performs the same statements in the same order.

## Findings

| source | as written | input that shows it | evidently intended | confidence | as-written member | corrected member |
|---|---|---|---|---|---|---|
| AudioKit/Core/AudioKitCore/Common/ResonantLowPassFilter.cpp:36 | `mX1 = mX2 = mY1 = mY1 = 0.0` assigns y1 twice, so `init` keeps y2. | A filter with y2 = 1 and b2 != 0: after `init`, `process(0.0)` returns -b2 instead of 0. | All four taps zeroed, so re-initialisation forgets earlier samples. | high (not executed) | LowPassFixes.InitRemembersY2 | LowPassFixes.InitClearingTaps |
| AudioKit/Core/AudioKitCore/Common/ResonantLowPassFilter.cpp:39 | The sentinel -1.0 is an ordinary argument value. | `init(sr)` then `setParams(-1.0, -1.0)`: the fast path keeps the coefficients from before `init`, not those for 12 Hz and -1 dB. | `init` always forces the next `setParams` to recompute. | medium (not executed) | LowPassFixes.SentinelSkipsRecompute | LowPassFixes.SetParamsTracked |
