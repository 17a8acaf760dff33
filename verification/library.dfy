/**
  Library services the adapters call into and that are not modelled:
  floating-point formatting with fmt's verbs and time.Parse with the
  CloudWatch timestamp layout. They are supplied as functions.
 */
module Library {

  import opened Optional
  import opened Strings

  type Year = n: nat | n <= 9999
  type Month = n: nat | 1 <= n <= 12 witness 1
  type Day = n: nat | 1 <= n <= 31 witness 1
  type Hour = n: nat | n < 24
  type Sixty = n: nat | n < 60

  /** A parsed time. Go's time.Parse only returns times whose fields are in range. */
  datatype DateTime = DateTime(year: Year, month: Month, day: Day, hour: Hour, minute: Sixty, second: Sixty)

  datatype Formatting = Formatting(
    /** fmt's "%.1f" */
    oneDecimal: real -> string,
    /** fmt's "%.2f" */
    twoDecimals: real -> string,
    /** fmt's "%.0f" */
    noDecimals: real -> string,
    /** time.Parse("2006-01-02T15:04:05.000+0000", s), None on error */
    parseTime: string -> Option<DateTime>
  )

  /**
   * Go's `v == float64(int64(v))`: the value has no fractional part and lies
   * in the int64 range. Outside that range the conversion yields the minimum
   * int64 (as on amd64), which does not convert back to `v`.
   */
  predicate IsWhole(v: real) {
    v.Floor as real == v && Int64Min <= v.Floor <= Int64Max
  }
}
