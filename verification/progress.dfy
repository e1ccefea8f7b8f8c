/**
 The progress guard and the filled fraction of the progress bar.
 A JavaScript number is modelled as a real or NaN; every ordered
 comparison involving NaN is false, and NaN and 0 are the falsy numbers.
 */
module Progress {

  /** A JavaScript number: a finite value or NaN (infinities are not modelled). */
  datatype JsNumber = Num(value: real) | NaN

  datatype Option<T> = None | Some(value: T)

  /** `!!n`: false exactly for 0 and NaN. */
  predicate Truthy(n: JsNumber) {
    n.Num? && n.value != 0.0
  }

  /** `a >= b` on JavaScript numbers. */
  predicate AtLeast(a: JsNumber, b: JsNumber) {
    a.Num? && b.Num? && a.value >= b.value
  }

  /** `a <= b` on JavaScript numbers. */
  predicate AtMost(a: JsNumber, b: JsNumber) {
    a.Num? && b.Num? && a.value <= b.value
  }

  /** The guard of the update: `!!val && val >= 0 && val <= maxValue`. */
  predicate Accepts(maxValue: JsNumber, val: JsNumber) {
    Truthy(val) && AtLeast(val, Num(0.0)) && AtMost(val, maxValue)
  }

  /**
   What the guard lets through: a number strictly above 0 and at most the
   maximum. Zero is refused although the documented range starts at 0, and
   so are NaN, negative values, values above the maximum and every value
   when the maximum is NaN.
   */
  lemma AcceptsExactly(maxValue: JsNumber, val: JsNumber)
    ensures Accepts(maxValue, val) <==>
      (val.Num? && maxValue.Num? && 0.0 < val.value <= maxValue.value)
  {}

  /** An accepted update implies a positive maximum, so the division is defined. */
  lemma AcceptedMaximumPositive(maxValue: JsNumber, val: JsNumber)
    requires Accepts(maxValue, val)
    ensures maxValue.Num? && maxValue.value > 0.0
  {}

  /** With a maximum that is not positive, no update is accepted. */
  lemma NonPositiveMaximumRejectsAll(maxValue: JsNumber, val: JsNumber)
    requires maxValue.NaN? || maxValue.value <= 0.0
    ensures !Accepts(maxValue, val)
  {}

  /**
   The fraction an update stores, or None when the guard refuses it:
   `val / maxValue`, mirrored to `1 - val / maxValue` when the direction is
   flipped. The division is reached only behind the guard.
   */
  function NewFraction(maxValue: JsNumber, flip: bool, val: JsNumber): (r: Option<real>)
    ensures r.Some? <==> Accepts(maxValue, val)
    ensures r.Some? && !flip ==> 0.0 < r.value <= 1.0
    ensures r.Some? && flip ==> 0.0 <= r.value < 1.0
    ensures r.Some? ==>
      r.value * maxValue.value == (if flip then maxValue.value - val.value else val.value)
  {
    if !Accepts(maxValue, val) then None
    else
      var q := val.value / maxValue.value;
      QuotientInUnitRange(val.value, maxValue.value);
      Some(if flip then 1.0 - q else q)
  }

  /** For `0 < v <= m`, the quotient `v / m` lies in (0, 1] and times `m` gives `v`. */
  lemma QuotientInUnitRange(v: real, m: real)
    requires 0.0 < v <= m
    ensures 0.0 < v / m <= 1.0
    ensures (v / m) * m == v
    ensures (1.0 - v / m) * m == m - v
  {}
}
