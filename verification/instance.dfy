/** The filter as the C++ class has it: mutable fields changed in place by
    `init`, `setParams` and the two `process` overloads. Each method's body
    follows the C++ statement by statement, except where README's "Left out"
    says otherwise; its contract says the fields end up as the matching
    function of `LowPass` computes.
 */
module LowPassObject {
  import opened MathLib
  import LowPass
  import LowPassBlock

  class ResonantLowPassFilter {
    const libm: Libm
    var sampleRateHz: real
    var lastCutoffHz: real
    var lastResonanceDb: real
    var x1: real
    var x2: real
    var y1: real
    var y2: real
    var a0: real
    var a1: real
    var a2: real
    var b1: real
    var b2: real

    /** The fields as a `LowPass.Filter` value. */
    function State(): LowPass.Filter
      reads this
    {
      LowPass.Filter(sampleRateHz, lastCutoffHz, lastResonanceDb,
                     LowPass.Taps(x1, x2, y1, y2),
                     LowPass.Coeffs(a0, a1, a2, b1, b2))
    }

    /** The constructor calls `init(44100.0)`; `before` supplies the member
        values that `init` does not set. */
    constructor(libm: Libm, before: LowPass.Filter)
      ensures this.libm == libm
      ensures State() == LowPass.Construct(before)
    {
      this.libm := libm;
      sampleRateHz := LowPass.DefaultSampleRateHz;
      x1, x2, y1 := 0.0, 0.0, 0.0;
      y2 := before.taps.y2;
      lastCutoffHz, lastResonanceDb := LowPass.UnsetParam, LowPass.UnsetParam;
      a0, a1, a2 := before.coeffs.a0, before.coeffs.a1, before.coeffs.a2;
      b1, b2 := before.coeffs.b1, before.coeffs.b2;
    }

    /** Sets every member to `f`. The C++ class has no such member; it lets a
        statement about the methods start from any state. */
    method Load(f: LowPass.Filter)
      modifies this
      ensures State() == f
    {
      sampleRateHz, lastCutoffHz, lastResonanceDb := f.sampleRateHz, f.lastCutoffHz, f.lastResonanceDb;
      x1, x2, y1, y2 := f.taps.x1, f.taps.x2, f.taps.y1, f.taps.y2;
      a0, a1, a2 := f.coeffs.a0, f.coeffs.a1, f.coeffs.a2;
      b1, b2 := f.coeffs.b1, f.coeffs.b2;
    }

    method Init(sampleRateHz: real)
      modifies this
      ensures State() == LowPass.Init(old(State()), sampleRateHz)
    {
      this.sampleRateHz := sampleRateHz;
      x1 := 0.0;
      x2 := 0.0;
      y1 := 0.0;
      y1 := 0.0;
      lastResonanceDb := LowPass.UnsetParam;
      lastCutoffHz := lastResonanceDb;
    }

    method SetParams(newCutoffHz: real, newResonanceDb: real)
      modifies this
      ensures State() == LowPass.SetParams(libm, old(State()), newCutoffHz, newResonanceDb)
    {
      if newCutoffHz == lastCutoffHz && newResonanceDb == lastResonanceDb {
        return;
      }
      ghost var before := State();
      var cutoffHz, resonanceDb := newCutoffHz, newResonanceDb;
      if cutoffHz < LowPass.MinCutoffHz { cutoffHz := LowPass.MinCutoffHz; }
      if resonanceDb < LowPass.MinResonanceDb { resonanceDb := LowPass.MinResonanceDb; }
      if resonanceDb > LowPass.MaxResonanceDb { resonanceDb := LowPass.MaxResonanceDb; }

      var cutoff := if sampleRateHz == 0.0 then LowPass.MaxNormalisedCutoff
                    else 2.0 * cutoffHz / sampleRateHz;
      if cutoff > LowPass.MaxNormalisedCutoff { cutoff := LowPass.MaxNormalisedCutoff; }

      lastCutoffHz := cutoffHz;
      lastResonanceDb := resonanceDb;

      assert cutoffHz == LowPass.ClampCutoff(newCutoffHz);
      assert resonanceDb == LowPass.ClampResonance(newResonanceDb);
      assert cutoff == LowPass.NormalisedCutoff(cutoffHz, sampleRateHz);
      var c := Coefficients(cutoff, resonanceDb);
      a0, a1, a2, b1, b2 := c.a0, c.a1, c.a2, c.b1, c.b2;
      assert State() == LowPass.Recompute(libm, before, newCutoffHz, newResonanceDb);
    }

    /** Lines 58-69 of `setParams`: from the normalised cutoff and the clamped
        resonance to the five coefficients. */
    method Coefficients(cutoff: real, resonanceDb: real) returns (c: LowPass.Coeffs)
      ensures c == LowPass.Design(libm, cutoff, resonanceDb)
    {
      var r := libm.pow(10.0, 0.05 * -resonanceDb);
      var k := 0.5 * r * libm.sin(Pi * cutoff);
      var c1 := Quot(libm, 0.5 * (1.0 - k), 1.0 + k);
      var c2 := (0.5 + c1) * libm.cos(Pi * cutoff);
      var c3 := (0.5 + c1 - c2) * 0.25;
      c := LowPass.Coeffs(2.0 * c3, 2.0 * 2.0 * c3, 2.0 * c3, 2.0 * -c2, 2.0 * c1);
    }

    /** `process(inputSample)`. */
    method Process(inputSample: real) returns (outputSample: real)
      modifies this
      ensures LowPass.Stepped(State(), outputSample) == LowPass.Step(libm, old(State()), inputSample)
    {
      outputSample := a0 * inputSample + a1 * x1 + a2 * x2 - b1 * y1 - b2 * y2;
      assert outputSample == LowPass.RawOutput(State().coeffs, State().taps, inputSample);
      if libm.isNan(outputSample) { outputSample := 0.0; }

      x2 := x1;
      x1 := inputSample;
      y2 := y1;
      y1 := outputSample;
    }

    /** `process(sourceP, destP, frames)`; `source` and `dest` may be the same array. */
    method ProcessBlock(source: array<real>, dest: array<real>, frames: int)
      requires 0 <= frames <= source.Length && frames <= dest.Length
      modifies this, dest
      ensures State() == LowPass.Run(libm, old(State()), old(source[..frames])).filter
      ensures dest[..frames] == LowPass.Run(libm, old(State()), old(source[..frames])).outputs
      ensures dest[frames..] == old(dest[frames..])
    {
      ghost var start := State();
      ghost var input := source[..frames];
      var i := 0;
      while i < frames
        invariant 0 <= i <= frames
        invariant forall j :: i <= j < frames ==> source[j] == input[j]
        invariant State() == LowPass.Run(libm, start, input[..i]).filter
        invariant dest[..i] == LowPass.Run(libm, start, input[..i]).outputs
        invariant dest[frames..] == old(dest[frames..])
      {
        var sample := source[i];
        assert sample == input[i];
        var output := Process(sample);
        LowPassBlock.RunSnoc(libm, start, input[..i], sample);
        assert input[..i + 1] == input[..i] + [sample];
        dest[i] := output;
        i := i + 1;
      }
      assert input[..frames] == input;
    }
  }

  /** Block and single-sample processing agree: two filters in the same state
      `start`, whatever it is, end with the same outputs and the same state
      whether one runs an in-place `ProcessBlock` over `samples` and the other
      calls `Process` on each sample in turn. Both routes are the block fold. */
  method BlockMatchesSamples(libm: Libm, start: LowPass.Filter, samples: seq<real>)
    returns (viaBlock: seq<real>, viaSamples: seq<real>,
             blockState: LowPass.Filter, sampleState: LowPass.Filter)
    ensures viaBlock == viaSamples
    ensures blockState == sampleState
    ensures viaBlock == LowPass.Run(libm, start, samples).outputs
    ensures blockState == LowPass.Run(libm, start, samples).filter
  {
    var one := new ResonantLowPassFilter(libm, start);
    one.Load(start);
    var two := new ResonantLowPassFilter(libm, start);
    two.Load(start);
    var buffer := new real[|samples|](i requires 0 <= i < |samples| => samples[i]);
    assert buffer[..] == samples;
    one.ProcessBlock(buffer, buffer, buffer.Length);
    viaBlock := buffer[..];
    blockState := one.State();

    viaSamples := [];
    var i := 0;
    while i < |samples|
      invariant 0 <= i <= |samples|
      invariant two.State() == LowPass.Run(libm, start, samples[..i]).filter
      invariant viaSamples == LowPass.Run(libm, start, samples[..i]).outputs
    {
      var y := two.Process(samples[i]);
      LowPassBlock.RunSnoc(libm, start, samples[..i], samples[i]);
      assert samples[..i + 1] == samples[..i] + [samples[i]];
      viaSamples := viaSamples + [y];
      i := i + 1;
    }
    assert samples[..|samples|] == samples;
    sampleState := two.State();
  }
}
