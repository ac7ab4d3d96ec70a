/**
 * The calendar dates a donation carries and their `YYYY-MM-DD` text form
 * (schemas/api_schemas.py:10): a four-digit year, a two-digit month and a
 * two-digit day, separated by hyphens, naming a day that exists in the
 * proleptic Gregorian calendar between years 1 and 9999.
 */
module Dates {
  import opened Results

  datatype Date = Date(year: int, month: int, day: int)

  predicate IsLeapYear(year: int) {
    year % 4 == 0 && (year % 100 != 0 || year % 400 == 0)
  }

  function DaysInMonth(year: int, month: int): int
    requires 1 <= month <= 12
  {
    if month == 2 then (if IsLeapYear(year) then 29 else 28)
    else if month == 4 || month == 6 || month == 9 || month == 11 then 30
    else 31
  }

  /** The dates a calendar date value can hold: years 1 through 9999. */
  predicate ValidDate(d: Date) {
    && 1 <= d.year <= 9999
    && 1 <= d.month <= 12
    && 1 <= d.day <= DaysInMonth(d.year, d.month)
  }

  /** A date that exists on the calendar, as every `datetime.date` value does. */
  type CalendarDate = d: Date | ValidDate(d) witness Date(1970, 1, 1)

  function Pow10(n: nat): nat {
    if n == 0 then 1 else 10 * Pow10(n - 1)
  }

  predicate IsDigit(c: char) {
    '0' <= c <= '9'
  }

  predicate AllDigits(s: string) {
    forall i :: 0 <= i < |s| ==> IsDigit(s[i])
  }

  /** The number a run of decimal digits denotes. */
  function DigitsValue(s: string): (n: nat)
    requires AllDigits(s)
    ensures n < Pow10(|s|)
    decreases |s|
  {
    if s == [] then 0
    else 10 * DigitsValue(s[..|s| - 1]) + ((s[|s| - 1] as int) - ('0' as int))
  }

  /** The low `width` decimal digits of `n`, zero-padded on the left. */
  function Digits(n: nat, width: nat): (s: string)
    ensures |s| == width && AllDigits(s)
    decreases width
  {
    if width == 0 then []
    else Digits(n / 10, width - 1) + [(('0' as int) + n % 10) as char]
  }

  /** Reading back the digits written for a number that fits recovers it. */
  lemma {:induction false} DigitsValueOfDigits(n: nat, width: nat)
    requires n < Pow10(width)
    ensures DigitsValue(Digits(n, width)) == n
    decreases width
  {
    if width > 0 {
      var s := Digits(n, width);
      var prefix := Digits(n / 10, width - 1);
      assert s[..|s| - 1] == prefix;
      DigitsValueOfDigits(n / 10, width - 1);
    }
  }

  /** Writing back the number a digit run denotes, at its own width, gives the run. */
  lemma {:induction false} DigitsOfDigitsValue(s: string)
    requires AllDigits(s)
    ensures Digits(DigitsValue(s), |s|) == s
    decreases |s|
  {
    if s != [] {
      var prefix := s[..|s| - 1];
      var v := DigitsValue(s);
      assert v / 10 == DigitsValue(prefix);
      DigitsOfDigitsValue(prefix);
      assert s == prefix + [s[|s| - 1]];
    }
  }

  /** Parses the `YYYY-MM-DD` form; `None` for anything else or a day that does not exist. */
  function ParseIsoDate(s: string): (r: Option<Date>)
    ensures r.Some? ==> ValidDate(r.value) && |s| == 10
  {
    if |s| == 10 && s[4] == '-' && s[7] == '-'
      && AllDigits(s[..4]) && AllDigits(s[5..7]) && AllDigits(s[8..])
    then
      var d := Date(DigitsValue(s[..4]), DigitsValue(s[5..7]), DigitsValue(s[8..]));
      if ValidDate(d) then Some(d) else None
    else None
  }

  predicate IsIsoDate(s: string) {
    ParseIsoDate(s).Some?
  }

  /** The `YYYY-MM-DD` text of a date (zero-padded, as an ISO calendar date is written). */
  function FormatIsoDate(d: Date): (s: string)
    requires ValidDate(d)
    ensures |s| == 10 && s[4] == '-' && s[7] == '-'
  {
    Digits(d.year, 4) + "-" + Digits(d.month, 2) + "-" + Digits(d.day, 2)
  }

  /** Every date survives being written and read back. */
  lemma ParseFormat(d: Date)
    requires ValidDate(d)
    ensures ParseIsoDate(FormatIsoDate(d)) == Some(d)
  {
    var s := FormatIsoDate(d);
    assert s[..4] == Digits(d.year, 4);
    assert s[5..7] == Digits(d.month, 2);
    assert s[8..] == Digits(d.day, 2);
    DigitsValueOfDigits(d.year, 4);
    DigitsValueOfDigits(d.month, 2);
    DigitsValueOfDigits(d.day, 2);
  }

  /** Every accepted date text is exactly the text of the date it denotes. */
  lemma FormatParse(s: string)
    requires IsIsoDate(s)
    ensures FormatIsoDate(ParseIsoDate(s).value) == s
  {
    DigitsOfDigitsValue(s[..4]);
    DigitsOfDigitsValue(s[5..7]);
    DigitsOfDigitsValue(s[8..]);
    assert s == s[..4] + "-" + s[5..7] + "-" + s[8..];
  }
}
