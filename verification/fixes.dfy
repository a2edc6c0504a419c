/** Two places where `init` does not do what its comments say, each shown on the
    code as written and then corrected.

    1. The statement that clears the history assigns y1 twice, so y2 survives
       `init` and the first output after re-initialisation still depends on the
       signal that came before it.
    2. The memo sentinel -1.0 is a value a caller can pass: `setParams(-1.0, -1.0)`
       straight after `init` takes the fast path and keeps stale coefficients,
       although `init` means to force a recomputation.

    The corrected filter clears all four taps and replaces the sentinel with an
    explicit "coefficients current" flag.
 */
module LowPassFixes {
  import opened MathLib
  import opened LowPass

  // ---------------------------------------------------------------------------
  // 1. init keeps y2

  /** As written: two filters that differ only in y2 give different first outputs
      after `init`, whenever b2 is non-zero and neither raw value is NaN. */
  lemma InitRemembersY2(m: Libm, f: Filter, f': Filter, sampleRateHz: real, input: real)
    requires f.coeffs == f'.coeffs && f.coeffs.b2 != 0.0
    requires f.taps.y2 != f'.taps.y2
    requires !m.isNan(RawOutput(f.coeffs, Init(f, sampleRateHz).taps, input))
    requires !m.isNan(RawOutput(f'.coeffs, Init(f', sampleRateHz).taps, input))
    ensures Step(m, Init(f, sampleRateHz), input).output != Step(m, Init(f', sampleRateHz), input).output
  {
  }

  /** Corrected `init`: all four taps are cleared, so the re-initialised filter
      depends on its past only through the coefficients. */
  function InitClearingTaps(f: Filter, sampleRateHz: real): (g: Filter)
    ensures g == Filter(sampleRateHz, UnsetParam, UnsetParam, Taps(0.0, 0.0, 0.0, 0.0), f.coeffs)
  {
    f.(sampleRateHz := sampleRateHz,
       taps := Taps(0.0, 0.0, 0.0, 0.0),
       lastCutoffHz := UnsetParam,
       lastResonanceDb := UnsetParam)
  }

  /** Re-initialisation resets memory: after the corrected `init`, any block is
      processed exactly as by a filter that never saw a sample before. */
  lemma ReinitForgetsHistory(m: Libm, f: Filter, f': Filter, sampleRateHz: real, source: seq<real>)
    requires f.coeffs == f'.coeffs
    ensures Run(m, InitClearingTaps(f, sampleRateHz), source) ==
            Run(m, InitClearingTaps(f', sampleRateHz), source)
  {
  }

  // ---------------------------------------------------------------------------
  // 2. the sentinel is reachable

  /** As written: `setParams(-1.0, -1.0)` straight after `init` changes nothing,
      so the coefficients stay those from before `init`, not the ones for a
      12 Hz cutoff and -1 dB resonance that the same call computes from any
      other memo. */
  lemma SentinelSkipsRecompute(m: Libm, f: Filter, sampleRateHz: real)
    ensures SetParams(m, Init(f, sampleRateHz), UnsetParam, UnsetParam) == Init(f, sampleRateHz)
    ensures f.coeffs != Design(m, NormalisedCutoff(MinCutoffHz, sampleRateHz), UnsetParam) ==>
              SetParams(m, Init(f, sampleRateHz), UnsetParam, UnsetParam).coeffs
              != Recompute(m, Init(f, sampleRateHz), UnsetParam, UnsetParam).coeffs
  {
  }

  /** A filter with an explicit flag saying whether its coefficients belong to its
      memoised parameters. */
  datatype Tracked = Tracked(filter: Filter, current: bool)

  ghost predicate Consistent(m: Libm, t: Tracked)
  {
    t.current ==> Ready(m, t.filter)
  }

  /** Corrected `init`: clears every tap and marks the coefficients stale. */
  function InitTracked(t: Tracked, sampleRateHz: real): (u: Tracked)
    ensures !u.current
    ensures u.filter.sampleRateHz == sampleRateHz
    ensures u.filter.taps == Taps(0.0, 0.0, 0.0, 0.0)
  {
    Tracked(InitClearingTaps(t.filter, sampleRateHz), false)
  }

  /** Corrected `setParams`: the fast path is only taken when the coefficients are
      current, so the first call after `init` always recomputes, whatever its
      arguments. */
  function SetParamsTracked(m: Libm, t: Tracked, cutoffHz: real, resonanceDb: real): (u: Tracked)
    ensures u.current
    ensures u.filter.sampleRateHz == t.filter.sampleRateHz && u.filter.taps == t.filter.taps
    ensures !t.current ==> u.filter == Recompute(m, t.filter, cutoffHz, resonanceDb)
    ensures Consistent(m, t) ==> Ready(m, u.filter)
    ensures Consistent(m, t) ==> u.filter == Recompute(m, t.filter, cutoffHz, resonanceDb)
  {
    if t.current && FastPath(t.filter, cutoffHz, resonanceDb) then t
    else Tracked(Recompute(m, t.filter, cutoffHz, resonanceDb), true)
  }

  /** The corrected `init` establishes consistency from any state, whatever the
      flag and the coefficients held before. */
  lemma InitTrackedIsConsistent(m: Libm, t: Tracked, sampleRateHz: real)
    ensures Consistent(m, InitTracked(t, sampleRateHz))
  {
  }

  /** Consistency is an invariant of the corrected filter: the corrected `init`,
      `setParams` and `process` keep it. */
  lemma TrackedStaysConsistent(m: Libm, t: Tracked, sampleRateHz: real,
                               cutoffHz: real, resonanceDb: real, input: real)
    requires Consistent(m, t)
    ensures Consistent(m, InitTracked(t, sampleRateHz))
    ensures Consistent(m, SetParamsTracked(m, t, cutoffHz, resonanceDb))
    ensures Consistent(m, Tracked(Step(m, t.filter, input).filter, t.current))
  {
  }

  /** With the flag, `init` followed by ANY `setParams`, the former sentinel pair
      included, recomputes: the memo holds both clamped parameters and the
      coefficients match them. */
  lemma InitThenSetParamsIsReady(m: Libm, t: Tracked, sampleRateHz: real,
                                 cutoffHz: real, resonanceDb: real)
    ensures Ready(m, SetParamsTracked(m, InitTracked(t, sampleRateHz), cutoffHz, resonanceDb).filter)
    ensures SetParamsTracked(m, InitTracked(t, sampleRateHz), cutoffHz, resonanceDb).filter.lastCutoffHz
            == ClampCutoff(cutoffHz)
    ensures SetParamsTracked(m, InitTracked(t, sampleRateHz), cutoffHz, resonanceDb).filter.lastResonanceDb
            == ClampResonance(resonanceDb)
    ensures SetParamsTracked(m, InitTracked(t, sampleRateHz), cutoffHz, resonanceDb).filter
            == Recompute(m, InitTracked(t, sampleRateHz).filter, cutoffHz, resonanceDb)
  {
  }

  /** The corrected `setParams` keeps the idempotence of the original. */
  lemma SetParamsTrackedIdempotent(m: Libm, t: Tracked, cutoffHz: real, resonanceDb: real)
    ensures SetParamsTracked(m, SetParamsTracked(m, t, cutoffHz, resonanceDb), cutoffHz, resonanceDb)
            == SetParamsTracked(m, t, cutoffHz, resonanceDb)
  {
  }
}
