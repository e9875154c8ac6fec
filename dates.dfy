/** Calendar dates as day numbers (days since 1970-01-01), with the civil conversions the
    modules need for ISO text and for constants such as 2020-01-01. */
module Dates {
  import opened Strings
  import opened Wrappers

  /** Days since 1970-01-01 of the proleptic Gregorian date year-month-day. */
  function DaysFromCivil(year: int, month: int, day: int): int
    requires 1 <= month <= 12
  {
    var y := if month <= 2 then year - 1 else year;
    var era := (if y >= 0 then y else y - 399) / 400;
    var yoe := y - era * 400;
    var mp := (month + 9) % 12;
    var doy := (153 * mp + 2) / 5 + day - 1;
    var doe := yoe * 365 + yoe / 4 - yoe / 100 + doy;
    era * 146097 + doe - 719468
  }

  /** The (year, month, day) of a day number. */
  function CivilFromDays(z0: int): (int, int, int) {
    var z := z0 + 719468;
    var era := (if z >= 0 then z else z - 146096) / 146097;
    var doe := z - era * 146097;
    var yoe := (doe - doe / 1460 + doe / 36524 - doe / 146096) / 365;
    var y := yoe + era * 400;
    var doy := doe - (365 * yoe + yoe / 4 - yoe / 100);
    var mp := (5 * doy + 2) / 153;
    var d := doy - (153 * mp + 2) / 5 + 1;
    var m := if mp < 10 then mp + 3 else mp - 9;
    (if m <= 2 then y + 1 else y, m, d)
  }

  predicate IsLeap(year: int) {
    year % 4 == 0 && (year % 100 != 0 || year % 400 == 0)
  }

  function DaysInMonth(year: int, month: int): int
    requires 1 <= month <= 12
  {
    if month == 2 then (if IsLeap(year) then 29 else 28)
    else if month in {4, 6, 9, 11} then 30
    else 31
  }

  /** `n` written with at least `width` digits, padded with zeros on the left. */
  function Padded(n: nat, width: nat): string {
    var s := NatToString(n);
    if |s| >= width then s else seq(width - |s|, _ => '0') + s
  }

  /** `date.isoformat()`: YYYY-MM-DD (years 1..9999 as the datetime library allows). */
  function IsoFormat(day: int): string {
    var (y, m, d) := CivilFromDays(day);
    Padded(if y < 0 then 0 else y, 4) + "-" + Padded(if m < 0 then 0 else m, 2) + "-"
      + Padded(if d < 0 then 0 else d, 2)
  }

  /** `date.fromisoformat(s)` for the YYYY-MM-DD form: the day number, or None where the
      library raises `ValueError`. */
  function ParseIsoDate(s: string): Option<int> {
    if |s| == 10 && s[4] == '-' && s[7] == '-' && AllDigits(s[..4]) && AllDigits(s[5..7])
       && AllDigits(s[8..])
    then
      var y := DigitsValue(s[..4]);
      var m := DigitsValue(s[5..7]);
      var d := DigitsValue(s[8..]);
      if 1 <= y && 1 <= m <= 12 && 1 <= d <= DaysInMonth(y, m) then Some(DaysFromCivil(y, m, d))
      else None
    else None
  }

  /** 1 January 2020, the default start of the Admitad statistics. */
  const Jan1st2020: int := DaysFromCivil(2020, 1, 1)
}
