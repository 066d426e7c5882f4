/** Calendar days as used by the option tools: `date.weekday()`, adding a
    number of days, and the `%Y-%m-%d` and `%y%m%d` renderings. The wall clock
    is never read here; "today" is always passed in as a day number. */
module Calendar {
  import opened Text

  /** A calendar day, counted from 1970-01-01 (day 0). */
  type Day = nat

  /** `date.weekday()`: Monday is 0 and Sunday is 6; 1970-01-01 was a Thursday. */
  function Weekday(d: Day): (w: nat)
    ensures w < 7
  {
    (d + 3) % 7
  }

  lemma WeekdayNext(d: Day)
    ensures Weekday(d + 1) == (Weekday(d) + 1) % 7
  {
  }

  predicate IsWeekend(d: Day)
  {
    Weekday(d) >= 5
  }

  predicate IsLeap(y: int)
  {
    y % 4 == 0 && (y % 100 != 0 || y % 400 == 0)
  }

  function DaysInYear(y: int): nat
  {
    if IsLeap(y) then 366 else 365
  }

  function DaysInMonth(y: int, m: int): (n: nat)
    requires 1 <= m <= 12
    ensures 28 <= n <= 31
  {
    if m == 2 then (if IsLeap(y) then 29 else 28)
    else if m == 4 || m == 6 || m == 9 || m == 11 then 30
    else 31
  }

  /** Days in months m..12 of year y. */
  function DaysFrom(y: int, m: int): nat
    requires 1 <= m <= 13
    decreases 13 - m
  {
    if m == 13 then 0 else DaysInMonth(y, m) + DaysFrom(y, m + 1)
  }

  lemma DaysFromJanuary(y: int)
    ensures DaysFrom(y, 1) == DaysInYear(y)
  {
    assert DaysFrom(y, 12) == 31;
    assert DaysFrom(y, 10) == 92;
    assert DaysFrom(y, 7) == 184;
    assert DaysFrom(y, 4) == 275;
  }

  datatype Date = Date(year: int, month: int, day: int)

  /** The year holding day `d` counted from 1 January of year `y`, and the
      day's offset within that year. */
  function YearAndOffset(d: nat, y: int): (r: (int, nat))
    ensures r.0 >= y && r.1 < DaysInYear(r.0)
    decreases d
  {
    if d < DaysInYear(y) then (y, d) else YearAndOffset(d - DaysInYear(y), y + 1)
  }

  /** The month and day-of-month of offset `doy` counted from month `m`. */
  function MonthAndDay(doy: nat, y: int, m: int): (r: (int, int))
    requires 1 <= m <= 12 && doy < DaysFrom(y, m)
    ensures m <= r.0 <= 12 && 1 <= r.1 <= DaysInMonth(y, r.0)
    decreases 12 - m
  {
    if doy < DaysInMonth(y, m) then (m, doy + 1)
    else MonthAndDay(doy - DaysInMonth(y, m), y, m + 1)
  }

  /** The proleptic Gregorian date of a day number. */
  function CivilDate(d: Day): (r: Date)
    ensures r.year >= 1970 && 1 <= r.month <= 12 && 1 <= r.day <= 31
  {
    var (y, doy) := YearAndOffset(d, 1970);
    DaysFromJanuary(y);
    var (m, dd) := MonthAndDay(doy, y, 1);
    Date(y, m, dd)
  }

  /** `strftime('%Y-%m-%d')` */
  function IsoDate(d: Day): string
  {
    var c := CivilDate(d);
    PadNat(c.year, 4) + "-" + PadNat(c.month, 2) + "-" + PadNat(c.day, 2)
  }

  /** `strftime('%y%m%d')` */
  function Yymmdd(d: Day): string
  {
    var c := CivilDate(d);
    PadNat(c.year % 100, 2) + PadNat(c.month, 2) + PadNat(c.day, 2)
  }

  lemma TwoDigits(n: nat)
    requires n < 100
    ensures |PadNat(n, 2)| == 2 && AllDigits(PadNat(n, 2))
  {
    NatToStringLength(n, 2);
    PadNatValue(n, 2);
  }

  /** The expiry part of an option symbol is six decimal digits. */
  lemma YymmddShape(d: Day)
    ensures |Yymmdd(d)| == 6 && AllDigits(Yymmdd(d))
  {
    var c := CivilDate(d);
    TwoDigits(c.year % 100);
    TwoDigits(c.month);
    TwoDigits(c.day);
  }

  /** An ISO date is ten characters with dashes at positions 4 and 7 for
      years below 10000. */
  lemma IsoDateShape(d: Day)
    requires CivilDate(d).year < 10000
    ensures |IsoDate(d)| == 10 && IsoDate(d)[4] == '-' && IsoDate(d)[7] == '-'
  {
    var c := CivilDate(d);
    NatToStringLength(c.year, 4);
    TwoDigits(c.month);
    TwoDigits(c.day);
  }
}
