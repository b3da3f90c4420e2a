/** Values read out of the pollution payloads.  A JavaScript field may hold a
    number or be absent (`undefined`, a placeholder string such as "N/A", or
    `NaN`); every numeric comparison against an absent value is false. */
module Readings {

  datatype Option<+T> = None | Some(value: T)

  /** A concentration or index as delivered by the payload: a number, or absent. */
  type Reading = Option<real>

  /** JavaScript `x || 0` on a numeric field: `undefined`, `null`, `NaN` and 0
      all become 0, any other number is kept.  (A placeholder string would
      survive `||` in JavaScript; it is absent here because every consumer of
      this value scores it like 0.) */
  function OrZero(x: Reading): (v: real)
    ensures v == 0.0 <==> x.None? || x == Some(0.0)
    ensures v != 0.0 ==> x == Some(v)
  {
    match x
    case None => 0.0
    case Some(c) => c
  }

  /** JavaScript `x > bound` for a reading: false whenever `x` is absent. */
  predicate Above(x: Reading, bound: real)
  {
    x.Some? && x.value > bound
  }
}
