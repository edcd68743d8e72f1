/**
 * Decimal values and the digit limits of a `DecimalField(max_digits, decimal_places)`.
 * Amounts of money in this model are integer cents; a field with two decimal places
 * holds exactly the cents below 10^(max_digits).
 */
module Decimals {
  import opened Wrappers
  import opened Digits

  /** A Decimal as `Decimal.as_tuple()` shows it: sign, coefficient digits and exponent. */
  datatype Dec = Dec(negative: bool, coefficient: nat, exponent: int)

  /** The value is below zero (a negative zero is not). */
  predicate IsNegative(d: Dec) {
    d.negative && d.coefficient != 0
  }

  /** The three complaints of the digit validator, reported one at a time in this order. */
  datatype DecimalError = MaxDigits | MaxDecimalPlaces | MaxWholeDigits

  /** Digits after the decimal point, as the validator counts them. */
  function DecimalPlaces(d: Dec): nat {
    if d.exponent >= 0 then 0 else -d.exponent
  }

  /** All digits, as the validator counts them (a positive exponent adds trailing zeros). */
  function DigitCount(d: Dec): nat {
    var n := |Str(d.coefficient)|;
    if d.exponent >= 0 then (if d.coefficient != 0 then n + d.exponent else n)
    else if -d.exponent > n then -d.exponent
    else n
  }

  /**
   * The digit check of a decimal field: too many digits, else too many decimal places,
   * else too many digits before the point. It passes exactly when the decimal places and
   * the whole digits both fit.
   */
  function DecimalCheck(d: Dec, maxDigits: nat, places: nat): (r: Option<DecimalError>)
    requires places <= maxDigits
    ensures r.None? <==>
      DecimalPlaces(d) <= places && DigitCount(d) - DecimalPlaces(d) <= maxDigits - places
  {
    var digits := DigitCount(d);
    var decimals := DecimalPlaces(d);
    var whole := digits - decimals;
    if digits > maxDigits then Some(MaxDigits)
    else if decimals > places then Some(MaxDecimalPlaces)
    else if whole > maxDigits - places then Some(MaxWholeDigits)
    else None
  }

  /** An amount of cents written with two decimal places. */
  function CentsDec(c: int): Dec {
    Dec(c < 0, if c < 0 then -c else c, -2)
  }

  /** The column every amount of money uses: twelve digits, two of them decimal. */
  const MoneyDigits: nat := 12
  const MoneyPlaces: nat := 2

  /** Cents that a DecimalField(max_digits=12, decimal_places=2) accepts. */
  predicate FitsMoney(c: int) {
    -(Pow10(MoneyDigits) as int) < c < Pow10(MoneyDigits)
  }

  /** The money columns' bound, written out: 10^12 cents. */
  lemma MoneyBound()
    ensures Pow10(MoneyDigits) == 1000000000000
  {
  }

  /** The digit check on a cents amount accepts exactly the amounts of FitsMoney. */
  lemma CentsFit(c: int)
    ensures DecimalCheck(CentsDec(c), MoneyDigits, MoneyPlaces).None? <==> FitsMoney(c)
  {
    var a := if c < 0 then -c else c;
    StrLength(a, MoneyDigits);
    if |Str(a)| < 2 {
      StrLength(a, 1);
      PowMonotone(1, MoneyDigits);
    }
  }
}
