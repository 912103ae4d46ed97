/**
 * The parts of JavaScript's number model that the simulation engine relies on:
 * the `Math` library functions it calls, and division that may leave the reals.
 */
module Numerics {

  /**
   * `Math.PI`, `Math.cos`, `Math.sin` and `Math.sqrt`. Their floating-point
   * implementations are foreign code, so the engine receives them as a value;
   * every fact about them that a property needs is stated by a predicate below.
   */
  datatype MathLib = MathLib(pi: real, cos: real -> real, sin: real -> real, sqrt: real -> real)

  /** `Math.sqrt` is zero at zero and strictly positive on positive arguments. */
  ghost predicate SqrtSound(m: MathLib)
  {
    m.sqrt(0.0) == 0.0 &&
    forall x :: 0.0 < x ==> 0.0 < m.sqrt(x)
  }

  /** The angle 0 lies on the +X axis, and (cos a, sin a) is always a unit vector. */
  ghost predicate TrigSound(m: MathLib)
  {
    m.cos(0.0) == 1.0 && m.sin(0.0) == 0.0 &&
    forall a :: m.cos(a) * m.cos(a) + m.sin(a) * m.sin(a) == 1.0
  }

  /**
   * A JavaScript number as far as the engine can produce one: a finite value,
   * or one of Infinity, -Infinity and NaN (which the engine never distinguishes).
   */
  datatype Number = Finite(value: real) | NonFinite

  /** JavaScript's `n / d`: dividing by zero does not give a finite number. */
  function Divide(n: real, d: real): (r: Number)
    ensures r.Finite? <==> d != 0.0
    ensures r.Finite? ==> r.value * d == n
  {
    if d == 0.0 then NonFinite else Finite(n / d)
  }
}
