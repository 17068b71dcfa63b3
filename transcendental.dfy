/**
 * The host math library as seen by the DSP scripts.
 *
 * The scripts call tanh, exp, sin, log10 and pow(10, .) on floating-point
 * numbers. Their numerics are not modelled: each is a field of a record, and
 * the type `Math` admits only records whose functions have the few properties
 * every proof below relies on. Every one of those properties holds of the real
 * functions.
 */
module Transcendental {

  /** Strictly positive reals: the only arguments log10 may be given. */
  type Positive = x: real | x > 0.0 witness 1.0

  datatype Ops = Ops(
    tanh: real -> real,
    exp: real -> real,
    sin: real -> real,
    log10: Positive -> real,
    pow10: real -> real)

  /** The facts about the transcendental functions that the model uses. */
  ghost predicate Lawful(o: Ops)
  {
    && (forall x :: -1.0 < o.tanh(x) < 1.0)
    && o.tanh(0.0) == 0.0
    && (forall x :: x >= 0.0 ==> o.tanh(x) >= 0.0)
    && (forall x :: o.exp(x) > 0.0)
    && (forall x :: x < 0.0 ==> o.exp(x) < 1.0)
    && o.exp(0.0) == 1.0
    && o.sin(0.0) == 0.0
    && (forall x :: o.pow10(x) > 0.0)
    && (forall x :: o.pow10(x) <= 1.0 <==> x <= 0.0)
    && o.pow10(0.0) == 1.0
  }

  /**
   * A math library that obeys the laws. The witness only shows that the laws
   * are consistent; it is not meant as an approximation of anything.
   */
  type Math = o: Ops | Lawful(o)
    witness Ops(
      x => 0.0,
      x => if x < 0.0 then 0.5 else 1.0,
      x => 0.0,
      x => 0.0,
      x => if x <= 0.0 then 1.0 else 2.0)
}
