/** Properties of `setParams` that relate several calls, and the characterisation
    of the coefficient recipe.
 */
module LowPassParams {
  import opened MathLib
  import opened LowPass

  /** Calling `setParams(c, r)` twice leaves the same state as calling it once:
      the second call either returns at once or recomputes from the same clamped
      values. */
  lemma SetParamsIdempotent(m: Libm, f: Filter, cutoffHz: real, resonanceDb: real)
    ensures SetParams(m, SetParams(m, f, cutoffHz, resonanceDb), cutoffHz, resonanceDb)
            == SetParams(m, f, cutoffHz, resonanceDb)
  {
  }

  /** Silent clamping: `setParams` depends on its arguments only through their
      clamped values, so `setParams(5, 0)` and `setParams(12, 0)` leave the same
      state, and so do resonances of 100 and 20. The one exception is a call that
      takes the fast path on a memo the coefficients do not match, which only the
      sentinel pair straight after `init` can do. */
  lemma SetParamsSeesOnlyClamped(m: Libm, f: Filter,
                                 cutoffHz: real, resonanceDb: real,
                                 cutoffHz': real, resonanceDb': real)
    requires Ready(m, f) ||
             (!FastPath(f, cutoffHz, resonanceDb) && !FastPath(f, cutoffHz', resonanceDb'))
    requires ClampCutoff(cutoffHz) == ClampCutoff(cutoffHz')
    requires ClampResonance(resonanceDb) == ClampResonance(resonanceDb')
    ensures SetParams(m, f, cutoffHz, resonanceDb) == SetParams(m, f, cutoffHz', resonanceDb')
  {
  }

  /** The structural equations in `Design`'s contract determine the coefficients:
      any record satisfying them for a non-degenerate `k` is the one `Design` builds. */
  lemma DesignCharacterised(m: Libm, cutoff: real, resonanceDb: real, c: Coeffs)
    requires 1.0 + Damping(m, cutoff, resonanceDb) != 0.0
    requires c.a2 == c.a0 && c.a1 == 2.0 * c.a0
    requires c.a0 + c.a1 + c.a2 == 1.0 + c.b1 + c.b2
    requires c.b1 == -(1.0 + c.b2) * m.cos(Pi * cutoff)
    requires c.b2 * (1.0 + Damping(m, cutoff, resonanceDb)) == 1.0 - Damping(m, cutoff, resonanceDb)
    ensures c == Design(m, cutoff, resonanceDb)
  {
  }

  /** Because the memo holds the clamped values, a repeated call takes the fast
      path exactly when its arguments were already in range: `setParams(5, 0)`
      twice recomputes both times. */
  lemma RepeatIsFastOnlyInRange(m: Libm, f: Filter, cutoffHz: real, resonanceDb: real)
    requires !FastPath(f, cutoffHz, resonanceDb)
    ensures FastPath(SetParams(m, f, cutoffHz, resonanceDb), cutoffHz, resonanceDb) <==>
            (cutoffHz >= MinCutoffHz && MinResonanceDb <= resonanceDb <= MaxResonanceDb)
  {
  }
}
