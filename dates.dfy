/** Calendar dates as `datetime.strptime(s, "%Y-%m-%d")` reads them and `date.isoformat()`
    writes them. */
module Dates {
  import opened Wrappers
  import opened Strings
  import opened PyFloat

  datatype Date = Date(year: int, month: int, day: int)

  predicate IsLeap(y: int) {
    y % 4 == 0 && (y % 100 != 0 || y % 400 == 0)
  }

  function DaysInMonth(y: int, m: int): int
    requires 1 <= m <= 12
  {
    if m == 2 then (if IsLeap(y) then 29 else 28)
    else if m == 4 || m == 6 || m == 9 || m == 11 then 30
    else 31
  }

  /** What the `date` constructor accepts (MINYEAR 1 to MAXYEAR 9999). */
  predicate ValidDate(d: Date) {
    1 <= d.year <= 9999 && 1 <= d.month <= 12 && 1 <= d.day <= DaysInMonth(d.year, d.month)
  }

  /** A date the `date` type can hold, as a database DATE column returns it. */
  type CalendarDate = d: Date | ValidDate(d) witness Date(1, 1, 1)

  predicate DigitAt(s: string, i: int) {
    0 <= i < |s| && IsDigit(s[i])
  }

  predicate CharAt(s: string, i: int, c: char) {
    0 <= i < |s| && s[i] == c
  }

  /** The `%m` group `1[0-2]|0[1-9]|[1-9]` at `i`, taking the alternative that the following
      `-` lets match; yields the month and the group's length. */
  function MonthGroup(s: string, i: nat): Option<(int, nat)> {
    if CharAt(s, i, '1') && DigitAt(s, i + 1) && s[i + 1] <= '2' && CharAt(s, i + 2, '-')
    then Some((10 + DigitValue(s[i + 1]), 2))
    else if CharAt(s, i, '0') && DigitAt(s, i + 1) && s[i + 1] != '0' && CharAt(s, i + 2, '-')
    then Some((DigitValue(s[i + 1]), 2))
    else if DigitAt(s, i) && s[i] != '0' && CharAt(s, i + 1, '-')
    then Some((DigitValue(s[i]), 1))
    else None
  }

  /** The `%d` group `3[01]|[12]\d|0[1-9]|[1-9]| [1-9]` at `i`: the first alternative that
      matches; yields the day and the group's length. */
  function DayGroup(s: string, i: nat): Option<(int, nat)> {
    if CharAt(s, i, '3') && (CharAt(s, i + 1, '0') || CharAt(s, i + 1, '1'))
    then Some((30 + DigitValue(s[i + 1]), 2))
    else if (CharAt(s, i, '1') || CharAt(s, i, '2')) && DigitAt(s, i + 1)
    then Some((10 * DigitValue(s[i]) + DigitValue(s[i + 1]), 2))
    else if CharAt(s, i, '0') && DigitAt(s, i + 1) && s[i + 1] != '0'
    then Some((DigitValue(s[i + 1]), 2))
    else if DigitAt(s, i) && s[i] != '0'
    then Some((DigitValue(s[i]), 1))
    else if CharAt(s, i, ' ') && DigitAt(s, i + 1) && s[i + 1] != '0'
    then Some((DigitValue(s[i + 1]), 2))
    else None
  }

  /** `datetime.strptime(s, "%Y-%m-%d")` as a date; None where Python raises ValueError
      (no match, unconverted data remains, or a day or year out of range). */
  function ParseDate(s: string): (r: Option<Date>)
    ensures r.Some? ==> ValidDate(r.value)
  {
    if !(DigitAt(s, 0) && DigitAt(s, 1) && DigitAt(s, 2) && DigitAt(s, 3) && CharAt(s, 4, '-')) then None
    else
      var year := 1000 * DigitValue(s[0]) + 100 * DigitValue(s[1]) + 10 * DigitValue(s[2]) + DigitValue(s[3]);
      match MonthGroup(s, 5)
      case None => None
      case Some((month, ml)) =>
        match DayGroup(s, 5 + ml + 1)
        case None => None
        case Some((day, dl)) =>
          if 5 + ml + 1 + dl != |s| then None
          else if ValidDate(Date(year, month, day)) then Some(Date(year, month, day))
          else None
  }

  /** Two-digit zero padding, `%02d` */
  function Pad2(n: nat): (s: string)
    requires n < 100
    ensures |s| == 2
  {
    [DigitChar(n / 10), DigitChar(n % 10)]
  }

  /** `date.isoformat()`: `%04d-%02d-%02d`. */
  function IsoFormat(d: Date): (s: string)
    requires ValidDate(d)
    ensures |s| == 10 && s[4] == '-' && s[7] == '-'
  {
    [DigitChar(d.year / 1000), DigitChar(d.year / 100 % 10), DigitChar(d.year / 10 % 10), DigitChar(d.year % 10)]
    + "-" + Pad2(d.month) + "-" + Pad2(d.day)
  }

  lemma YearDigits(y: int)
    requires 0 <= y <= 9999
    ensures 1000 * (y / 1000) + 100 * (y / 100 % 10) + 10 * (y / 10 % 10) + y % 10 == y
  {
    var q := y / 10;
    assert y == 10 * q + y % 10;
    assert y / 100 == q / 10;
    assert y / 1000 == q / 100;
  }

  /** strptime reads back every date that isoformat writes. */
  lemma ParseIsoFormat(d: Date)
    requires ValidDate(d)
    ensures ParseDate(IsoFormat(d)) == Some(d)
  {
    var s := IsoFormat(d);
    assert DigitValue(s[0]) == d.year / 1000;
    YearDigits(d.year);
    assert DigitValue(s[5]) == d.month / 10 && DigitValue(s[6]) == d.month % 10;
    assert MonthGroup(s, 5) == Some((d.month, 2));
    assert DigitValue(s[8]) == d.day / 10 && DigitValue(s[9]) == d.day % 10;
    assert DayGroup(s, 8) == Some((d.day, 2));
  }
}
