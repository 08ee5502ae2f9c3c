/** Amounts in minor units of a currency (internal/domain/money). Integers are unbounded here. */
module Money {
  datatype Amount = Amount(minorUnits: int, currency: string) {
    /** Combining two currencies is a caller's mistake; the source panics on it. */
    function Add(b: Amount): Amount
      requires currency == b.currency
    {
      Amount(minorUnits + b.minorUnits, currency)
    }

    function Sub(b: Amount): Amount
      requires currency == b.currency
    {
      Amount(minorUnits - b.minorUnits, currency)
    }

    predicate WithinTolerance(b: Amount, tolerance: Amount)
      requires currency == b.currency == tolerance.currency
    {
      var diff := minorUnits - b.minorUnits;
      (if diff < 0 then -diff else diff) <= tolerance.minorUnits
    }
  }
}
