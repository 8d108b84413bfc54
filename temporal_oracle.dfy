/**
 * The reference rule T(tau) that the temporal test suites state for the X-108
 * gate: an irreversible action whose elapsed time is below tau is held,
 * everything else is allowed. The suites write the rule on an elapsed time
 * and on a pair of clock readings (first seen at t0, evaluated at now).
 */
module TemporalOracle {
  import X108

  datatype Permission = HOLD | ALLOW

  /** The oracle on an elapsed time. */
  function OracleTTau(irreversible: bool, elapsedS: real, tau: real): Permission {
    if irreversible && elapsedS < tau then HOLD else ALLOW
  }

  /** The oracle on clock readings: the elapsed time is `now - t0`, which may be negative. */
  function GateAt(irreversible: bool, t0: real, now: real, tau: real): Permission {
    OracleTTau(irreversible, now - t0, tau)
  }

  /** The OS1 gate with minimum wait tau agrees with the oracle on every input. */
  lemma GateAgreesWithOracle(irreversible: bool, elapsedS: real, tau: real)
    ensures X108.NewGate(tau).Check(elapsedS, irreversible).decision == X108.ACT
            <==> OracleTTau(irreversible, elapsedS, tau) == ALLOW
    ensures X108.NewGate(tau).Check(elapsedS, irreversible).decision == X108.HOLD
            <==> OracleTTau(irreversible, elapsedS, tau) == HOLD
  {
  }

  /** A reversible action is never held. */
  lemma ReversibleAllowed(t0: real, now: real, tau: real)
    ensures GateAt(false, t0, now, tau) == ALLOW
  {
  }

  /** Clock skew is conservative: a clock that went backwards holds an irreversible action. */
  lemma NegativeElapsedHolds(t0: real, now: real, tau: real)
    requires now < t0 && tau >= 0.0
    ensures GateAt(true, t0, now, tau) == HOLD
  {
  }

  /** Every moment strictly before tau holds, however close to it. */
  lemma HoldsStrictlyBeforeTau(t0: real, dt: real, tau: real)
    requires dt < tau
    ensures GateAt(true, t0, t0 + dt, tau) == HOLD
  {
  }

  /** At tau and after, an irreversible action is allowed. */
  lemma AllowsFromTau(t0: real, now: real, tau: real)
    requires now >= t0 + tau
    ensures GateAt(true, t0, now, tau) == ALLOW
  {
  }

  /** Monotonicity in time: HOLD never follows ALLOW as the clock moves forward. */
  lemma MonotoneInTime(irreversible: bool, t0: real, now1: real, now2: real, tau: real)
    requires now1 <= now2
    ensures GateAt(irreversible, t0, now1, tau) == ALLOW ==> GateAt(irreversible, t0, now2, tau) == ALLOW
    ensures GateAt(irreversible, t0, now2, tau) == HOLD ==> GateAt(irreversible, t0, now1, tau) == HOLD
  {
  }

  /** The decision depends on the clock readings only through their difference. */
  lemma ShiftInvariant(irreversible: bool, t0: real, now: real, tau: real, d: real)
    ensures GateAt(irreversible, t0 + d, now + d, tau) == GateAt(irreversible, t0, now, tau)
  {
  }

  /** The concrete cases of the suites, with tau = 10. */
  lemma SuiteCases(t0: real)
    ensures GateAt(true, t0, t0 - 5.0, 10.0) == HOLD
    ensures GateAt(true, t0, t0 + 10.0 - 0.000000001, 10.0) == HOLD
    ensures GateAt(true, t0, t0 + 10.0, 10.0) == ALLOW
    ensures GateAt(true, t0, t0 + 10.0 + 0.001, 10.0) == ALLOW
    ensures GateAt(true, t0, t0 + 10.0 - 0.001, 10.0) == HOLD
    ensures GateAt(true, t0, t0 + 3.0, 10.0) == HOLD
    ensures GateAt(true, t0, t0 + 11.0, 10.0) == ALLOW
  {
  }
}
