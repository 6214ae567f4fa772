/**
 * The cadence gates of the training loop: the test, log and save decisions
 * are all `step % period == 0`, evaluated on the incremented step.
 */
module Cadence {
  import opened Wrappers

  /**
   * `step % period == 0`. Python's `%` takes the sign of the divisor and Dafny's
   * is never negative, but the two are zero for exactly the same operands; a
   * zero period raises ZeroDivisionError.
   */
  function Fires(step: int, period: int): (r: Result<bool, PyError>)
    ensures r.Failure? <==> period == 0
    ensures r.Failure? ==> r.error == ZeroDivisionError
  {
    if period == 0 then Failure(ZeroDivisionError) else Success(step % period == 0)
  }

  /** Every multiple of the period fires. */
  lemma FiresAtMultiples(k: int, period: int)
    requires period != 0
    ensures Fires(k * period, period) == Success(true)
  {
  }

  /** Only multiples of the period fire. */
  lemma FiresOnlyAtMultiples(step: int, period: int)
    requires period != 0 && Fires(step, period) == Success(true)
    ensures step == (step / period) * period
  {
  }

  /** No positive step short of a positive period fires. */
  lemma QuietBeforeFirstPeriod(step: int, period: int)
    requires 0 < step < period
    ensures Fires(step, period) == Success(false)
  {
  }
}
