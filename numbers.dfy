// Decimal rendering and parsing of container names, and the ISO-8601 rendering
// of an epoch-millisecond instant.
//
// Container names are `new Date().getTime().toString()`; relation values are
// `new Date(Number(name)).toISOString()`. The three JavaScript built-ins
// (Number#toString, Number(...) on a digit string, Date#toISOString) are
// written out here so that the rest of the model can reason about them.
module Numbers {

  /** The largest instant a JavaScript Date can hold, in milliseconds since the epoch. */
  const MAX_DATE_MS: nat := 8_640_000_000_000_000

  /** A clock reading as returned by `new Date().getTime()` (never before the epoch here). */
  type EpochMillis = n: nat | n <= MAX_DATE_MS

  predicate IsDigit(c: char) { '0' <= c <= '9' }

  predicate IsDigits(s: string) {
    forall i :: 0 <= i < |s| ==> IsDigit(s[i])
  }

  function DigitChar(d: nat): (c: char)
    requires d < 10
    ensures IsDigit(c) && c as int - '0' as int == d
  {
    ('0' as int + d) as char
  }

  /** `n.toString()` for a non-negative integer: decimal digits, no leading zero. */
  function DecimalString(n: nat): (s: string)
    ensures |s| > 0 && IsDigits(s)
    ensures |s| > 1 ==> s[0] != '0'
  {
    if n < 10 then [DigitChar(n)] else DecimalString(n / 10) + [DigitChar(n % 10)]
  }

  /** `Number(s)` for a non-empty string of decimal digits. */
  function DigitsValue(s: string): nat
    requires IsDigits(s)
  {
    if s == [] then 0
    else DigitsValue(s[..|s| - 1]) * 10 + (s[|s| - 1] as int - '0' as int)
  }

  /** Parsing the decimal rendering of a clock reading gives the reading back. */
  lemma {:induction false} DigitsValueOfDecimalString(n: nat)
    ensures DigitsValue(DecimalString(n)) == n
  {
    var s := DecimalString(n);
    if n >= 10 {
      assert s[..|s| - 1] == DecimalString(n / 10);
      DigitsValueOfDecimalString(n / 10);
    }
  }

  /** Two distinct clock readings never give the same container name. */
  lemma DecimalStringInjective(a: nat, b: nat)
    requires DecimalString(a) == DecimalString(b)
    ensures a == b
  {
    DigitsValueOfDecimalString(a);
    DigitsValueOfDecimalString(b);
  }

  /** A string names a timestamp the Date built-in accepts: digits whose value is in range. */
  predicate IsTimestampName(s: string) {
    |s| > 0 && IsDigits(s) && DigitsValue(s) <= MAX_DATE_MS
  }

  /** The value `Number(name)` of a timestamp name. */
  function TimestampOf(name: string): EpochMillis
    requires IsTimestampName(name)
  {
    DigitsValue(name)
  }

  /** Every clock reading renders to a timestamp name that parses back to it. */
  lemma DecimalStringIsTimestampName(now: EpochMillis)
    ensures IsTimestampName(DecimalString(now)) && TimestampOf(DecimalString(now)) == now
  {
    DigitsValueOfDecimalString(now);
  }

  /** `now.toString()` as a container name: a timestamp name that reads back as `now`. */
  function TimestampName(now: EpochMillis): (name: string)
    ensures IsTimestampName(name) && TimestampOf(name) == now
  {
    DecimalStringIsTimestampName(now);
    DecimalString(now)
  }

  /** The lowest `width` decimal digits of `n`, zero-padded. */
  function Padded(n: int, width: nat): (r: string)
    ensures |r| == width
    decreases width
  {
    if width == 0 then [] else Padded(n / 10, width - 1) + [DigitChar(n % 10)]
  }

  predicate IsLeapYear(year: int) {
    year % 4 == 0 && (year % 100 != 0 || year % 400 == 0)
  }

  function DaysInYear(year: int): nat {
    if IsLeapYear(year) then 366 else 365
  }

  function DaysInMonth(year: int, month: int): nat {
    if month == 2 then (if IsLeapYear(year) then 29 else 28)
    else if month == 4 || month == 6 || month == 9 || month == 11 then 30
    else 31
  }

  /**
   * The proleptic Gregorian year holding day `days` counted from January 1
   * of `year`, and the day's index within that year.
   */
  function YearAndDay(days: nat, year: int): (r: (int, nat))
    ensures r.0 >= year && r.1 < DaysInYear(r.0)
    decreases days
  {
    if days < DaysInYear(year) then (year, days)
    else YearAndDay(days - DaysInYear(year), year + 1)
  }

  /**
   * The month, from `month` on, holding day index `dayOfYear` of `year`
   * counted from the first of `month`, and its day of the month from 1.
   * December takes whatever is left.
   */
  function MonthAndDay(year: int, dayOfYear: nat, month: int): (r: (int, nat))
    requires 1 <= month <= 12
    ensures month <= r.0 <= 12 && r.1 >= 1
    decreases 12 - month
  {
    if month == 12 || dayOfYear < DaysInMonth(year, month) then (month, dayOfYear + 1)
    else MonthAndDay(year, dayOfYear - DaysInMonth(year, month), month + 1)
  }

  /** `YYYY-MM-DD`, or `+YYYYYY-MM-DD` beyond year 9999. */
  function DateText(year: int, month: int, day: int): (r: string)
    ensures |r| == 10 || |r| == 13
  {
    var yearText := if year <= 9999 then Padded(year, 4) else "+" + Padded(year, 6);
    yearText + "-" + Padded(month, 2) + "-" + Padded(day, 2)
  }

  /** `HH:mm:ss.sssZ` for the millisecond `inDay` of a day. */
  function TimeText(inDay: int): (r: string)
    ensures |r| == 13 && r[8] == '.' && r[12] == 'Z'
  {
    var hh := Padded(inDay / 3_600_000, 2);
    var mm := Padded(inDay / 60_000 % 60, 2);
    var ss := Padded(inDay / 1000 % 60, 2);
    var sss := Padded(inDay % 1000, 3);
    assert (hh + ":" + mm + ":" + ss)[..8] == hh + ":" + mm + ":" + ss;
    hh + ":" + mm + ":" + ss + "." + sss + "Z"
  }

  /**
   * `new Date(ms).toISOString()`: `YYYY-MM-DDTHH:mm:ss.sssZ`, with the year
   * written `+YYYYYY` beyond 9999. The calendar date is the proleptic
   * Gregorian date of day `ms / 86400000` after 1970-01-01.
   */
  function IsoDateTime(ms: EpochMillis): (r: string)
    ensures |r| == 24 || |r| == 27
    ensures r[|r| - 1] == 'Z' && r[|r| - 5] == '.' && r[|r| - 14] == 'T'
  {
    var (year, dayOfYear) := YearAndDay(ms / 86_400_000, 1970);
    var (month, day) := MonthAndDay(year, dayOfYear, 1);
    var date := DateText(year, month, day);
    var time := TimeText(ms % 86_400_000);
    assert (date + "T" + time)[|date| + 1..] == time;
    date + "T" + time
  }
}
