/**
 * The parts of JavaScript's `Math` object that the pipeline uses.
 *
 * `Math.PI`, `Math.cos`, `Math.sin` and `Math.sqrt` are floating-point library
 * routines; the model passes them around as an uninterpreted record of values and
 * assumes of them only the facts a contract needs (see `SqrtFacts`, `CosBounded`).
 * `Math.round`, `Math.ceil`, `Math.min`, `Math.max` and `Math.abs` are exact here.
 */
module JsMath {

  /** The trigonometric and square-root routines, left uninterpreted. */
  datatype MathLib = MathLib(pi: real, cos: real -> real, sin: real -> real, sqrt: real -> real)

  /** What the model needs of `Math.sqrt`: it is zero at zero and never negative on its domain. */
  ghost predicate SqrtFacts(m: MathLib)
  {
    m.sqrt(0.0) == 0.0 && forall x: real :: 0.0 <= x ==> 0.0 <= m.sqrt(x)
  }

  /** What the model needs of `Math.cos`: its range is [-1, 1]. */
  ghost predicate CosBounded(m: MathLib)
  {
    forall x: real :: -1.0 <= m.cos(x) <= 1.0
  }

  /** `Math.round`: the nearest integer, a half rounded up, i.e. floor(x + 0.5). */
  function Round(x: real): (r: int)
    ensures x - 0.5 < r as real <= x + 0.5
  {
    (x + 0.5).Floor
  }

  /** `Math.ceil`: the least integer not below x. */
  function Ceil(x: real): (r: int)
    ensures x <= r as real < x + 1.0
  {
    -((-x).Floor)
  }

  function Abs(x: real): real
  {
    if x < 0.0 then -x else x
  }

  function MinInt(a: int, b: int): int
  {
    if a <= b then a else b
  }

  function MaxInt(a: int, b: int): int
  {
    if a >= b then a else b
  }

  function MinReal(a: real, b: real): real
  {
    if a <= b then a else b
  }

  function MaxReal(a: real, b: real): real
  {
    if a >= b then a else b
  }
}
