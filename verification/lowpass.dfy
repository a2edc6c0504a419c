/** AudioKitCore's ResonantLowPassFilter as a value: a second-order resonant
    low-pass filter whose state is a sample rate, the memoised parameters of the
    last coefficient computation, two past inputs, two past outputs and five
    recursion coefficients.

    Every operation is a pure function from the old state to the new one; the
    class in `LowPassObject` mutates fields exactly as these functions say.
 */
module LowPass {
  import opened MathLib

  /** Lowest cutoff frequency, in Hz, that the coefficients are computed for. */
  const MinCutoffHz: real := 12.0
  /** Resonance, in dB, is clamped to [MinResonanceDb, MaxResonanceDb]. */
  const MinResonanceDb: real := -20.0
  const MaxResonanceDb: real := 20.0
  /** Ceiling on the cutoff as a fraction of the Nyquist frequency. */
  const MaxNormalisedCutoff: real := 0.99
  /** What `init` stores in both memo fields to force the next recomputation. */
  const UnsetParam: real := -1.0
  /** The sample rate the constructor assumes. */
  const DefaultSampleRateHz: real := 44100.0

  /** History taps: the previous two inputs and the previous two outputs. */
  datatype Taps = Taps(x1: real, x2: real, y1: real, y2: real)

  /** The recurrence y = a0*x + a1*x1 + a2*x2 - b1*y1 - b2*y2. */
  datatype Coeffs = Coeffs(a0: real, a1: real, a2: real, b1: real, b2: real)

  datatype Filter = Filter(
    sampleRateHz: real,
    lastCutoffHz: real,
    lastResonanceDb: real,
    taps: Taps,
    coeffs: Coeffs)

  /** The state after one sample, and the sample produced. */
  datatype Stepped = Stepped(filter: Filter, output: real)

  /** The state after a block, and the samples produced. */
  datatype Block = Block(filter: Filter, outputs: seq<real>)

  // ---------------------------------------------------------------------------
  // Initialisation

  /** `init(sampleRateHz)`: records the rate, zeroes x1, x2 and y1, and sets both
      memo fields to the sentinel. The statement meant to clear the taps assigns
      y1 twice, so y2 keeps its old value; the coefficients are not touched. */
  function Init(f: Filter, sampleRateHz: real): (g: Filter)
    ensures g.sampleRateHz == sampleRateHz
    ensures g.taps.x1 == 0.0 && g.taps.x2 == 0.0 && g.taps.y1 == 0.0
    ensures g.taps.y2 == f.taps.y2
    ensures g.lastCutoffHz == UnsetParam && g.lastResonanceDb == UnsetParam
    ensures g.coeffs == f.coeffs
  {
    f.(sampleRateHz := sampleRateHz,
       taps := f.taps.(x1 := 0.0, x2 := 0.0, y1 := 0.0),
       lastCutoffHz := UnsetParam,
       lastResonanceDb := UnsetParam)
  }

  /** The constructor is `init(44100.0)` applied to whatever the members held
      before (`before`): y2 and the coefficients are not set by it. */
  function Construct(before: Filter): (g: Filter)
    ensures g.sampleRateHz == DefaultSampleRateHz
    ensures g.taps == before.taps.(x1 := 0.0, x2 := 0.0, y1 := 0.0)
    ensures g.lastCutoffHz == UnsetParam && g.lastResonanceDb == UnsetParam
    ensures g.coeffs == before.coeffs
  {
    Init(before, DefaultSampleRateHz)
  }

  // ---------------------------------------------------------------------------
  // Parameters

  function ClampCutoff(cutoffHz: real): (c: real)
    ensures c >= MinCutoffHz
    ensures cutoffHz >= MinCutoffHz ==> c == cutoffHz
    ensures cutoffHz < MinCutoffHz ==> c == MinCutoffHz
  {
    if cutoffHz < MinCutoffHz then MinCutoffHz else cutoffHz
  }

  function ClampResonance(resonanceDb: real): (c: real)
    ensures MinResonanceDb <= c <= MaxResonanceDb
    ensures MinResonanceDb <= resonanceDb <= MaxResonanceDb ==> c == resonanceDb
    ensures resonanceDb < MinResonanceDb ==> c == MinResonanceDb
    ensures resonanceDb > MaxResonanceDb ==> c == MaxResonanceDb
  {
    var raised := if resonanceDb < MinResonanceDb then MinResonanceDb else resonanceDb;
    if raised > MaxResonanceDb then MaxResonanceDb else raised
  }

  /** The cutoff as a fraction of the Nyquist frequency, `2 * cutoffHz / sampleRateHz`,
      clipped to 0.99. With a zero sample rate the double quotient is +infinity,
      which the clip turns into 0.99. */
  function NormalisedCutoff(cutoffHz: real, sampleRateHz: real): (w: real)
    requires cutoffHz >= MinCutoffHz
    ensures w <= MaxNormalisedCutoff
    ensures sampleRateHz > 0.0 ==> 0.0 < w
    ensures sampleRateHz > 0.0 && 2.0 * cutoffHz <= MaxNormalisedCutoff * sampleRateHz
            ==> w * sampleRateHz == 2.0 * cutoffHz
    ensures sampleRateHz > 0.0 && 2.0 * cutoffHz > MaxNormalisedCutoff * sampleRateHz
            ==> w == MaxNormalisedCutoff
  {
    var w := if sampleRateHz == 0.0 then MaxNormalisedCutoff else 2.0 * cutoffHz / sampleRateHz;
    if w > MaxNormalisedCutoff then MaxNormalisedCutoff else w
  }

  /** `r = pow(10, 0.05 * -resonanceDb)`: the decibel value is negated first. */
  function LinearResonance(m: Libm, resonanceDb: real): real
  {
    m.pow(10.0, 0.05 * -resonanceDb)
  }

  /** The intermediate `k = 0.5 * r * sin(pi * cutoff)`. */
  function Damping(m: Libm, cutoff: real, resonanceDb: real): real
  {
    0.5 * LinearResonance(m, resonanceDb) * m.sin(Pi * cutoff)
  }

  /** The five coefficients for a normalised cutoff and a (clamped) resonance.
      Whatever sin, cos and pow return, the numerator taps are (1, 2, 1) times a0,
      the gain at DC is one (a0 + a1 + a2 == 1 + b1 + b2), b1 is -(1 + b2) times
      cos(pi * cutoff), and b2 solves b2 * (1 + k) == 1 - k. */
  function Design(m: Libm, cutoff: real, resonanceDb: real): (c: Coeffs)
    ensures c.a2 == c.a0 && c.a1 == 2.0 * c.a0
    ensures c.a0 + c.a1 + c.a2 == 1.0 + c.b1 + c.b2
    ensures c.b1 == -(1.0 + c.b2) * m.cos(Pi * cutoff)
    ensures 1.0 + Damping(m, cutoff, resonanceDb) != 0.0 ==>
              c.b2 * (1.0 + Damping(m, cutoff, resonanceDb)) == 1.0 - Damping(m, cutoff, resonanceDb)
    ensures 1.0 + Damping(m, cutoff, resonanceDb) == 0.0 ==> c.b2 == 2.0 * m.overZero(1.0)
  {
    var k := Damping(m, cutoff, resonanceDb);
    var c1 := Quot(m, 0.5 * (1.0 - k), 1.0 + k);
    var c2 := (0.5 + c1) * m.cos(Pi * cutoff);
    var c3 := (0.5 + c1 - c2) * 0.25;
    Coeffs(2.0 * c3, 2.0 * 2.0 * c3, 2.0 * c3, 2.0 * -c2, 2.0 * c1)
  }

  /** The coefficients agree with the memoised parameters, and those lie in the
      clamped ranges: the state after any `setParams` that did not take the fast path. */
  ghost predicate Ready(m: Libm, f: Filter)
  {
    && f.lastCutoffHz >= MinCutoffHz
    && MinResonanceDb <= f.lastResonanceDb <= MaxResonanceDb
    && f.coeffs == Design(m, NormalisedCutoff(f.lastCutoffHz, f.sampleRateHz), f.lastResonanceDb)
  }

  /** Whether `setParams(cutoffHz, resonanceDb)` returns at once. */
  predicate FastPath(f: Filter, cutoffHz: real, resonanceDb: real)
  {
    cutoffHz == f.lastCutoffHz && resonanceDb == f.lastResonanceDb
  }

  /** The slow path of `setParams`: clamp both parameters, memoise the CLAMPED
      values, and write all five coefficients at once. */
  function Recompute(m: Libm, f: Filter, cutoffHz: real, resonanceDb: real): (g: Filter)
    ensures Ready(m, g)
    ensures g.lastCutoffHz == ClampCutoff(cutoffHz)
    ensures g.lastResonanceDb == ClampResonance(resonanceDb)
    ensures g.sampleRateHz == f.sampleRateHz && g.taps == f.taps
  {
    var cutoffHz' := ClampCutoff(cutoffHz);
    var resonanceDb' := ClampResonance(resonanceDb);
    var cutoff := NormalisedCutoff(cutoffHz', f.sampleRateHz);
    f.(lastCutoffHz := cutoffHz',
       lastResonanceDb := resonanceDb',
       coeffs := Design(m, cutoff, resonanceDb'))
  }

  /** `setParams(cutoffHz, resonanceDb)`. */
  function SetParams(m: Libm, f: Filter, cutoffHz: real, resonanceDb: real): (g: Filter)
    ensures g.sampleRateHz == f.sampleRateHz && g.taps == f.taps
    ensures FastPath(f, cutoffHz, resonanceDb) ==> g == f
    ensures !FastPath(f, cutoffHz, resonanceDb) ==>
              && Ready(m, g)
              && g.lastCutoffHz == ClampCutoff(cutoffHz)
              && g.lastResonanceDb == ClampResonance(resonanceDb)
    ensures g.coeffs == f.coeffs ||
            g.coeffs == Design(m, NormalisedCutoff(g.lastCutoffHz, g.sampleRateHz), g.lastResonanceDb)
    ensures Ready(m, f) ==> Ready(m, g)
  {
    if FastPath(f, cutoffHz, resonanceDb) then f else Recompute(m, f, cutoffHz, resonanceDb)
  }

  // ---------------------------------------------------------------------------
  // Processing

  /** The recurrence before the NaN guard. */
  function RawOutput(c: Coeffs, t: Taps, input: real): real
  {
    c.a0 * input + c.a1 * t.x1 + c.a2 * t.x2 - c.b1 * t.y1 - c.b2 * t.y2
  }

  /** `process(inputSample)`: evaluate the recurrence, replace a NaN by 0, then
      shift the input and the output into the history. */
  function Step(m: Libm, f: Filter, input: real): (s: Stepped)
    ensures s.filter == f.(taps := Taps(input, f.taps.x1, s.output, f.taps.y1))
    ensures m.isNan(RawOutput(f.coeffs, f.taps, input)) ==> s.output == 0.0
    ensures !m.isNan(RawOutput(f.coeffs, f.taps, input)) ==>
              s.output == RawOutput(f.coeffs, f.taps, input)
  {
    var y := RawOutput(f.coeffs, f.taps, input);
    var output := if m.isNan(y) then 0.0 else y;
    Stepped(f.(taps := Taps(input, f.taps.x1, output, f.taps.y1)), output)
  }

  /** `process(source, dest, frames)` on the first `frames` samples of `source`:
      the single-sample step applied to each sample in order. */
  function Run(m: Libm, f: Filter, source: seq<real>): (b: Block)
    ensures |b.outputs| == |source|
    ensures b.filter == f.(taps := b.filter.taps)
    decreases |source|
  {
    if |source| == 0 then Block(f, [])
    else
      var s := Step(m, f, source[0]);
      var rest := Run(m, s.filter, source[1..]);
      Block(rest.filter, [s.output] + rest.outputs)
  }
}
