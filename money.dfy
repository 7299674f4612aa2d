/** Fixed-point money as stored by the wallet table: a `Numeric(10, 2)` column,
    kept here as an exact integer count of minor units (hundredths). */
module Money {

  /** Total number of decimal digits the balance column holds. */
  const Precision: nat := 10

  /** Digits after the decimal point. */
  const Scale: nat := 2

  /** Minor units per major unit. */
  const MinorPerMajor: nat := 100

  /** Largest magnitude, in minor units, that fits the column: 99999999.99. */
  const MaxMinor: nat := 9_999_999_999

  function Pow10(n: nat): (r: nat)
    ensures r >= 1
  {
    if n == 0 then 1 else 10 * Pow10(n - 1)
  }

  /** The two literals above are the ones `Numeric(Precision, Scale)` implies. */
  lemma ConstantsMatchColumn()
    ensures MinorPerMajor == Pow10(Scale)
    ensures MaxMinor == Pow10(Precision) - 1
  {
  }

  /** The store refuses (numeric field overflow) a value outside this range. */
  predicate Fits(x: int)
  {
    -(MaxMinor as int) <= x <= MaxMinor
  }
}
