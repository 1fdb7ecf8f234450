/**
 * The browser's own checks on number inputs, which a form's `submit` event waits
 * for: an input with a `step` holds only values that are a whole number of steps,
 * counted from the input's `min`. `OnStep` counts from 0, which is the `min` of the
 * one input it is applied to, the expense amount (`min="0"`).
 */
module Browser {
  /** A value a number input with this `step` lets through. */
  predicate OnStep(x: real, step: real)
    requires step > 0.0
  {
    (x / step).Floor as real == x / step
  }

  /** With `step="0.01"`: a whole number of cents. */
  lemma CentsStep(x: real)
    ensures OnStep(x, 0.01) <==> (x * 100.0).Floor as real == x * 100.0
  {
    assert x / 0.01 == x * 100.0;
  }

  /** Every whole amount is on the cent step. */
  lemma WholeOnCentStep(n: int)
    ensures OnStep(n as real, 0.01)
  {
    assert n as real / 0.01 == (n * 100) as real;
  }

  /** Every amount with one decimal is on the cent step. */
  lemma TenthsOnCentStep(n: int)
    ensures OnStep(n as real / 10.0, 0.01)
  {
    assert n as real / 10.0 / 0.01 == (n * 10) as real;
  }

  /** A tenth of a cent is off the cent step. */
  lemma TenthOfCentOffStep()
    ensures !OnStep(0.001, 0.01)
  {
    CentsStep(0.001);
    assert 0.001 * 100.0 == 0.1;
  }
}
