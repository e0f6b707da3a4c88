/** Calendar dates and their `strftime('%d-%m-%Y')` rendering: two-digit day,
    two-digit month and four-digit year, each zero-padded, separated by dashes. */
module DateFormat {
  import opened Wrappers

  datatype Date = Date(year: int, month: int, day: int)

  predicate IsLeapYear(year: int)
  {
    year % 4 == 0 && (year % 100 != 0 || year % 400 == 0)
  }

  function DaysInMonth(year: int, month: int): int
    requires 1 <= month <= 12
  {
    if month == 2 then (if IsLeapYear(year) then 29 else 28)
    else if month == 4 || month == 6 || month == 9 || month == 11 then 30
    else 31
  }

  /** A real calendar date whose year `%Y` renders as exactly four digits. */
  predicate ValidDate(d: Date)
  {
    1000 <= d.year <= 9999 && 1 <= d.month <= 12 && 1 <= d.day <= DaysInMonth(d.year, d.month)
  }

  function Pow10(n: nat): nat
  {
    if n == 0 then 1 else 10 * Pow10(n - 1)
  }

  predicate IsDigit(c: char)
  {
    '0' <= c <= '9'
  }

  function DigitChar(n: int): (c: char)
    requires 0 <= n < 10
    ensures IsDigit(c)
  {
    ('0' as int + n) as char
  }

  /** `n` in decimal, left-padded with zeros to exactly `width` digits. */
  function PadDigits(n: nat, width: nat): (s: string)
    requires n < Pow10(width)
    ensures |s| == width
    ensures forall i :: 0 <= i < |s| ==> IsDigit(s[i])
  {
    if width == 0 then "" else PadDigits(n / 10, width - 1) + [DigitChar(n % 10)]
  }

  /** The value of a string of decimal digits; None if any character is not a digit. */
  function ParseDigits(s: string): Option<nat>
  {
    if s == [] then Some(0)
    else if !IsDigit(s[|s| - 1]) then None
    else match ParseDigits(s[..|s| - 1])
      case None => None
      case Some(v) => Some(10 * v + (s[|s| - 1] as int - '0' as int))
  }

  lemma {:induction false} ParsePadDigits(n: nat, width: nat)
    requires n < Pow10(width)
    ensures ParseDigits(PadDigits(n, width)) == Some(n)
  {
    if width > 0 {
      var s := PadDigits(n, width);
      assert s[..|s| - 1] == PadDigits(n / 10, width - 1);
      ParsePadDigits(n / 10, width - 1);
    }
  }

  /** `strftime('%d-%m-%Y')`. */
  function FormatDate(d: Date): (s: string)
    requires ValidDate(d)
    ensures |s| == 10 && s[2] == '-' && s[5] == '-'
  {
    PadDigits(d.day, 2) + "-" + PadDigits(d.month, 2) + "-" + PadDigits(d.year, 4)
  }

  /** Reads a `dd-mm-yyyy` string back as a date; None unless it is one. */
  function ParseDate(s: string): Option<Date>
  {
    if |s| != 10 || s[2] != '-' || s[5] != '-' then None
    else
      match (ParseDigits(s[0..2]), ParseDigits(s[3..5]), ParseDigits(s[6..10]))
      case (Some(day), Some(month), Some(year)) =>
        var d := Date(year, month, day);
        if ValidDate(d) then Some(d) else None
      case _ => None
  }

  /** The formatted date can be read back, so the rendering loses nothing. */
  lemma ParseFormatDate(d: Date)
    requires ValidDate(d)
    ensures ParseDate(FormatDate(d)) == Some(d)
  {
    var s := FormatDate(d);
    assert s[0..2] == PadDigits(d.day, 2);
    assert s[3..5] == PadDigits(d.month, 2);
    assert s[6..10] == PadDigits(d.year, 4);
    ParsePadDigits(d.day, 2);
    ParsePadDigits(d.month, 2);
    ParsePadDigits(d.year, 4);
  }

  /** Two dates render the same exactly when they are the same date. */
  lemma FormatDateInjective(d1: Date, d2: Date)
    requires ValidDate(d1) && ValidDate(d2)
    ensures FormatDate(d1) == FormatDate(d2) <==> d1 == d2
  {
    if FormatDate(d1) == FormatDate(d2) {
      ParseFormatDate(d1);
      ParseFormatDate(d2);
    }
  }
}
