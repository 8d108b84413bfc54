/**
 * The X-108 temporal gate of OS1: an irreversible action is held until a
 * minimum time has elapsed; a reversible action always passes.
 */
module X108 {

  datatype Decision = ACT | HOLD

  /**
   * The explanation attached to a check. The source renders it as one line of
   * text with the numbers to two decimals and the caller's note appended.
   */
  datatype Reason =
    | ReversibleBypass(note: string)
    | Satisfied(elapsedS: real, minWaitS: real, note: string)
    | NeedMore(waitS: real, elapsedS: real, minWaitS: real, note: string)

  datatype X108Check = X108Check(decision: Decision, waitS: real, reason: Reason)

  /** The default minimum wait, in seconds. */
  const DefaultMinWaitS: real := 108.0

  datatype X108Gate = X108Gate(minWaitS: real) {

    /**
     * The decision for an action after `elapsedS` seconds. Only an
     * irreversible action that has waited less than the minimum is held, and
     * a hold says how much longer to wait.
     */
    function Check(elapsedS: real, irreversible: bool, note: string := ""): (c: X108Check)
      ensures c.decision == HOLD <==> irreversible && elapsedS < minWaitS
      ensures c.decision == ACT ==> c.waitS == 0.0
      ensures c.decision == HOLD ==> c.waitS > 0.0 && elapsedS + c.waitS == minWaitS
      ensures !irreversible ==> c.reason == ReversibleBypass(note)
    {
      if !irreversible then
        X108Check(ACT, 0.0, ReversibleBypass(note))
      else if elapsedS >= minWaitS then
        X108Check(ACT, 0.0, Satisfied(elapsedS, minWaitS, note))
      else
        var wait := minWaitS - elapsedS;
        X108Check(HOLD, wait, NeedMore(wait, elapsedS, minWaitS, note))
    }
  }

  /** `X108Gate(min_wait_s=108.0)`. */
  function NewGate(minWaitS: real := DefaultMinWaitS): (g: X108Gate)
    ensures g.minWaitS == minWaitS
  {
    X108Gate(minWaitS)
  }

  /** Waiting the announced time is enough: the same action is then allowed. */
  lemma WaitingSuffices(g: X108Gate, elapsedS: real, irreversible: bool, note: string)
    ensures g.Check(elapsedS + g.Check(elapsedS, irreversible, note).waitS, irreversible, note).decision == ACT
  {
  }

  /**
   * Once allowed, an action stays allowed as time goes on; the remaining wait
   * shrinks by exactly the time that passed.
   */
  lemma CheckMonotone(g: X108Gate, e1: real, e2: real, irreversible: bool)
    requires e1 <= e2
    ensures g.Check(e1, irreversible).decision == ACT ==> g.Check(e2, irreversible).decision == ACT
    ensures g.Check(e2, irreversible).decision == HOLD ==>
              g.Check(e1, irreversible).waitS - g.Check(e2, irreversible).waitS == e2 - e1
  {
  }

  /** A larger minimum wait is never more permissive. */
  lemma LongerMinimumIsStricter(g1: X108Gate, g2: X108Gate, elapsedS: real, irreversible: bool)
    requires g1.minWaitS <= g2.minWaitS
    ensures g2.Check(elapsedS, irreversible).decision == ACT ==> g1.Check(elapsedS, irreversible).decision == ACT
  {
  }

  /**
   * Clock skew: for a non-negative minimum, an elapsed time below zero on an
   * irreversible action is held,
   * and the announced wait is longer than the minimum itself.
   */
  lemma ClockSkewHolds(g: X108Gate, elapsedS: real, note: string)
    requires elapsedS < 0.0 <= g.minWaitS
    ensures g.Check(elapsedS, true, note).decision == HOLD
    ensures g.Check(elapsedS, true, note).waitS > g.minWaitS
  {
  }

  /** The announced wait is never negative, whatever the inputs. */
  lemma WaitNonNegative(g: X108Gate, elapsedS: real, irreversible: bool, note: string)
    ensures g.Check(elapsedS, irreversible, note).waitS >= 0.0
  {
  }
}
