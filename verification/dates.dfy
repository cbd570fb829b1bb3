/**
 * Dates as the application sees them through `new Date(...)` and date-fns: the local
 * calendar fields of an instant. `getYear`, `getMonth` (zero-based), `startOfDay`,
 * `getTime` and the 'yyyy-MM-dd' and Spanish 'MMMM yyyy' formats are total functions
 * of those fields.
 */
module Dates {
  import opened Strings

  type MonthIndex = m: nat | m < 12
  type DayOfMonth = d: nat | 1 <= d <= 31 witness 1
  type MillisOfDay = ms: nat | ms < 86400000

  /** A valid instant, read in local time. */
  datatype Stamp = Stamp(year: nat, month: MonthIndex, day: DayOfMonth, millis: MillisOfDay)

  /** A calendar day: the result of `startOfDay`. */
  datatype Day = Day(year: nat, month: MonthIndex, day: DayOfMonth)

  function DayOf(s: Stamp): Day
  {
    Day(s.year, s.month, s.day)
  }

  /** Days numbered in calendar order (31 slots per month, so some numbers are unused). */
  function DayOrdinal(d: Day): nat
  {
    (d.year * 12 + d.month) * 31 + (d.day - 1)
  }

  /** `getTime()`: milliseconds on a local time line; later instants get larger numbers. */
  function Time(s: Stamp): nat
  {
    DayOrdinal(DayOf(s)) * 86400000 + s.millis
  }

  /** Different days never share an ordinal, so ordering by ordinal is strict on distinct days. */
  lemma DayOrdinalInjective(a: Day, b: Day)
    requires DayOrdinal(a) == DayOrdinal(b)
    ensures a == b
  {
  }

  function TwoDigits(n: nat): string
  {
    PadZero(NatToString(n), 2)
  }

  /** `format(date, 'yyyy-MM-dd')`. */
  function DayText(d: Day): string
  {
    PadZero(NatToString(d.year), 4) + "-" + TwoDigits(d.month + 1) + "-" + TwoDigits(d.day)
  }

  /** Month names of date-fns' Spanish locale, in lower case. */
  const SpanishMonths: seq<string> := [
    "enero", "febrero", "marzo", "abril", "mayo", "junio",
    "julio", "agosto", "septiembre", "octubre", "noviembre", "diciembre"
  ]

  /** `format(date, 'MMMM yyyy', { locale: es })`, e.g. "julio 2024". */
  function MonthYearText(year: nat, month: MonthIndex): string
  {
    SpanishMonths[month] + " " + PadZero(NatToString(year), 4)
  }
}
