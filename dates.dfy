/**
 * The part of JavaScript's `Date` that the sales trend reads. Parsing a date
 * string, printing an ISO date and the local calendar fields depend on the
 * host's clock and time zone, so they are not defined here: a `Calendar`
 * value supplies them, and the model holds for every calendar. Their ranges
 * are those of the `Date` accessors.
 */
module Dates {
  import opened Wrappers
  import opened JsValues

  /** `getDate()`: day of the month. */
  type DayOfMonth = d: int | 1 <= d <= 31 witness 1

  /** `getDay()`: 0 for Sunday up to 6 for Saturday. */
  type DayOfWeek = d: int | 0 <= d <= 6

  /** `getMonth()`: 0 for January up to 11 for December. */
  type MonthIndex = m: int | 0 <= m <= 11

  datatype Calendar = Calendar(
    /** `new Date(s).getTime()`, None when that is NaN. */
    parse: string -> Option<int>,
    /** `new Date(t).toISOString().split('T')[0]`, the `YYYY-MM-DD` key. */
    isoDate: int -> string,
    /** `new Date(key).getTime()` for a key that `isoDate` printed. */
    dayValue: string -> int,
    /** `getDate()`, `getDay()`, `getFullYear()` and `getMonth()` of a time value. */
    date: int -> DayOfMonth,
    day: int -> DayOfWeek,
    fullYear: int -> int,
    month: int -> MonthIndex
  )

  /**
   * The week number of the weekly trend, `Math.ceil((date + (day + 1)) / 7)`:
   * the least `n` with `date + day + 1 <= 7 * n`. It is a simplified scheme,
   * not ISO 8601 week numbering, and it restarts every month.
   */
  function WeekNumber(date: DayOfMonth, day: DayOfWeek): (n: int)
    ensures 7 * (n - 1) < date + day + 1 <= 7 * n
    ensures 1 <= n <= 6
  {
    (date + day + 1 + 6) / 7
  }

  /** `Week ${weekNum}, ${date.getFullYear()}`. */
  function WeekKey(cal: Calendar, t: int): string {
    "Week " + NatToString(WeekNumber(cal.date(t), cal.day(t))) + ", " + IntToString(cal.fullYear(t))
  }

  /** `${getFullYear()}-${String(getMonth() + 1).padStart(2, '0')}`. */
  function MonthKey(cal: Calendar, t: int): string {
    IntToString(cal.fullYear(t)) + "-" + PadStart2(NatToString(cal.month(t) + 1))
  }

  /** The month part of a monthly key is always two digits, so it ends every key. */
  lemma {:induction false} MonthKeySuffix(cal: Calendar, t: int)
    ensures var k := MonthKey(cal, t);
      |k| >= 4 && k[|k| - 3] == '-' && AllDigits(k[|k| - 2..])
      && DigitsValue(k[|k| - 2..]) == cal.month(t) + 1
  {
    var m := cal.month(t) + 1;
    var s := NatToString(m);
    var p := PadStart2(s);
    var k := MonthKey(cal, t);
    if m < 10 {
      assert s == [DigitChar(m)];
      assert p == ['0', DigitChar(m)];
      assert DigitsValue(p) == DigitsValue(['0']) * 10 + m by {
        assert p[..1] == ['0'];
      }
    } else {
      assert s == NatToString(m / 10) + [DigitChar(m % 10)];
      assert NatToString(m / 10) == [DigitChar(1)];
      assert |p| == 2;
    }
    assert k[|k| - 2..] == p;
  }
}
