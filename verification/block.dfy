/** Block processing: what `Run` does across block boundaries, sample by sample,
    and two value-level versions of the array loop in
    `LowPassObject.ResonantLowPassFilter.ProcessBlock`: one reading a separate
    source, one reading the very buffer it overwrites.
 */
module LowPassBlock {
  import opened MathLib
  import opened LowPass

  /** Superposition in the recurrence: the value before the NaN guard is the
      response to the new input alone plus the response of the history alone. */
  lemma RawOutputSplits(c: Coeffs, t: Taps, input: real)
    ensures RawOutput(c, t, input) ==
            RawOutput(c, Taps(0.0, 0.0, 0.0, 0.0), input) + RawOutput(c, t, 0.0)
    ensures RawOutput(c, Taps(0.0, 0.0, 0.0, 0.0), input) == c.a0 * input
  {
  }

  /** Running one more sample extends the outputs by the step from the state
      the block left behind. */
  lemma {:induction false} RunSnoc(m: Libm, f: Filter, source: seq<real>, x: real)
    ensures Run(m, f, source + [x]) ==
            Block(Step(m, Run(m, f, source).filter, x).filter,
                  Run(m, f, source).outputs + [Step(m, Run(m, f, source).filter, x).output])
    decreases |source|
  {
    if |source| == 0 {
      assert source + [x] == [x];
    } else {
      var s := Step(m, f, source[0]);
      assert (source + [x])[1..] == source[1..] + [x];
      RunSnoc(m, s.filter, source[1..], x);
    }
  }

  /** Continuity across calls: one block over `a + b` is a block over `a`
      followed by a block over `b` from the state `a` left behind. */
  lemma {:induction false} RunAppend(m: Libm, f: Filter, a: seq<real>, b: seq<real>)
    ensures Run(m, f, a + b) ==
            Block(Run(m, Run(m, f, a).filter, b).filter,
                  Run(m, f, a).outputs + Run(m, Run(m, f, a).filter, b).outputs)
    decreases |a|
  {
    if |a| == 0 {
      assert a + b == b;
    } else {
      var s := Step(m, f, a[0]);
      assert (a + b)[1..] == a[1..] + b;
      RunAppend(m, s.filter, a[1..], b);
    }
  }

  /** Output i of a block is the single-sample step on sample i from the state
      after the first i samples. */
  lemma RunOutputIsStep(m: Libm, f: Filter, source: seq<real>, i: int)
    requires 0 <= i < |source|
    ensures Run(m, f, source).outputs[i] == Step(m, Run(m, f, source[..i]).filter, source[i]).output
  {
    assert source == source[..i] + source[i..];
    RunAppend(m, f, source[..i], source[i..]);
  }

  /** After a block of at least two samples the taps hold its last two inputs
      and its last two outputs. */
  lemma RunTapsHoldLastTwo(m: Libm, f: Filter, source: seq<real>)
    requires |source| >= 2
    ensures var b := Run(m, f, source);
            var n := |source|;
            b.filter.taps == Taps(source[n - 1], source[n - 2], b.outputs[n - 1], b.outputs[n - 2])
  {
    var n := |source|;
    var front := source[..n - 1];
    assert source == front + [source[n - 1]];
    assert front == source[..n - 2] + [source[n - 2]];
    RunSnoc(m, f, front, source[n - 1]);
    RunSnoc(m, f, source[..n - 2], source[n - 2]);
  }

  predicate Silent(t: Taps)
  {
    t.x1 == 0.0 && t.x2 == 0.0 && t.y1 == 0.0 && t.y2 == 0.0
  }

  /** Silence in, silence out: from all-zero taps, a block of zero inputs
      produces zero outputs and leaves the taps at zero, whatever the coefficients. */
  lemma {:induction false} SilenceInSilenceOut(m: Libm, f: Filter, source: seq<real>)
    requires Silent(f.taps)
    requires forall i :: 0 <= i < |source| ==> source[i] == 0.0
    ensures Silent(Run(m, f, source).filter.taps)
    ensures forall i :: 0 <= i < |source| ==> Run(m, f, source).outputs[i] == 0.0
    decreases |source|
  {
    if |source| > 0 {
      var s := Step(m, f, source[0]);
      assert RawOutput(f.coeffs, f.taps, source[0]) == 0.0;
      SilenceInSilenceOut(m, s.filter, source[1..]);
      var rest := Run(m, s.filter, source[1..]);
      forall i | 0 <= i < |source|
        ensures Run(m, f, source).outputs[i] == 0.0
      {
        if i > 0 {
          assert Run(m, f, source).outputs[i] == rest.outputs[i - 1];
        }
      }
    }
  }

  /** Value-level `process(sourceP, destP, frames)` with separate buffers: the first `frames`
      samples of `dest` become the block's outputs, the rest of `dest` is kept. */
  method ProcessBuffers(m: Libm, f: Filter, source: seq<real>, dest: seq<real>, frames: int)
    returns (g: Filter, out: seq<real>)
    requires 0 <= frames <= |source| && frames <= |dest|
    ensures |out| == |dest|
    ensures g == Run(m, f, source[..frames]).filter
    ensures out[..frames] == Run(m, f, source[..frames]).outputs
    ensures out[frames..] == dest[frames..]
  {
    g := f;
    out := dest;
    var i := 0;
    while i < frames
      invariant 0 <= i <= frames
      invariant |out| == |dest|
      invariant g == Run(m, f, source[..i]).filter
      invariant out[..i] == Run(m, f, source[..i]).outputs
      invariant forall j :: i <= j < |out| ==> out[j] == dest[j]
    {
      var s := Step(m, g, source[i]);
      RunSnoc(m, f, source[..i], source[i]);
      assert source[..i + 1] == source[..i] + [source[i]];
      g := s.filter;
      out := out[i := s.output];
      i := i + 1;
    }
    assert out[frames..] == dest[frames..];
  }

  /** Value-level `process(sourceP, destP, frames)` with `destP == sourceP`: the
      loop reads each sample from the buffer it is rewriting, just before its slot
      is overwritten, so the result is the block run over the ORIGINAL contents. */
  method ProcessInPlace(m: Libm, f: Filter, buffer: seq<real>, frames: int)
    returns (g: Filter, out: seq<real>)
    requires 0 <= frames <= |buffer|
    ensures |out| == |buffer|
    ensures g == Run(m, f, buffer[..frames]).filter
    ensures out[..frames] == Run(m, f, buffer[..frames]).outputs
    ensures out[frames..] == buffer[frames..]
  {
    g := f;
    out := buffer;
    var i := 0;
    while i < frames
      invariant 0 <= i <= frames
      invariant |out| == |buffer|
      invariant g == Run(m, f, buffer[..i]).filter
      invariant out[..i] == Run(m, f, buffer[..i]).outputs
      invariant forall j :: i <= j < |out| ==> out[j] == buffer[j]
    {
      var input := out[i];
      assert input == buffer[i];
      var s := Step(m, g, input);
      RunSnoc(m, f, buffer[..i], input);
      assert buffer[..i + 1] == buffer[..i] + [input];
      g := s.filter;
      out := out[i := s.output];
      i := i + 1;
    }
    assert out[frames..] == buffer[frames..];
  }
}
