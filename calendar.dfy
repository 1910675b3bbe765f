/** Calendar days. The server's clock and time zone are not modelled: the current local day is
    passed to the operations that need it, and every record remembers the day it was created. */
module Calendar {

  /** A local calendar day, as `getFullYear()`, `getMonth() + 1` and `getDate()` report it. */
  datatype Date = Date(year: nat, month: nat, day: nat)

  /** The days whose `YYYYMMDD` rendering has exactly eight digits. */
  predicate Plausible(d: Date) {
    1000 <= d.year <= 9999 && 1 <= d.month <= 12 && 1 <= d.day <= 31
  }
}
