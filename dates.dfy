/** Proleptic Gregorian calendar dates, the `YYYY-MM-DD` form that a date
    input produces and that `toISOString().split('T')[0]` prints, and the
    280-day EDD rule (`eddDate.setDate(eddDate.getDate() + 280)`). */
module Dates {
  import opened Wrappers
  import opened Text

  datatype Date = Date(year: int, month: int, day: int)

  predicate IsLeapYear(y: int) {
    y % 4 == 0 && (y % 100 != 0 || y % 400 == 0)
  }

  function DaysInYear(y: int): int {
    if IsLeapYear(y) then 366 else 365
  }

  function DaysInMonth(y: int, m: int): int
    requires 1 <= m <= 12
  {
    if m == 2 then (if IsLeapYear(y) then 29 else 28)
    else if m == 4 || m == 6 || m == 9 || m == 11 then 30
    else 31
  }

  /** A day that exists in the calendar (years from 0 on). */
  predicate IsValid(d: Date) {
    0 <= d.year && 1 <= d.month <= 12 && 1 <= d.day <= DaysInMonth(d.year, d.month)
  }

  /** The following calendar day: the rollover that `setDate` performs when
      the day of the month runs past the month's end. */
  function NextDay(d: Date): (r: Date)
    requires IsValid(d)
    ensures IsValid(r)
  {
    if d.day < DaysInMonth(d.year, d.month) then Date(d.year, d.month, d.day + 1)
    else if d.month < 12 then Date(d.year, d.month + 1, 1)
    else Date(d.year + 1, 1, 1)
  }

  /** The date `n` days after `d`. */
  function AddDays(d: Date, n: nat): (r: Date)
    requires IsValid(d)
    ensures IsValid(r)
    decreases n
  {
    if n == 0 then d else AddDays(NextDay(d), n - 1)
  }

  // ---------------------------------------------------------------------
  // day numbers: the reference that AddDays is checked against

  function DaysBeforeYear(y: nat): nat {
    if y == 0 then 0 else DaysBeforeYear(y - 1) + DaysInYear(y - 1)
  }

  function DaysBeforeMonth(y: int, m: int): int
    requires 1 <= m <= 12
  {
    [0, 31, 59, 90, 120, 151, 181, 212, 243, 273, 304, 334][m - 1]
      + (if m > 2 && IsLeapYear(y) then 1 else 0)
  }

  /** Position of `d` in the sequence of all days from 0000-01-01 (day 1). */
  function DayNumber(d: Date): int
    requires IsValid(d)
  {
    DaysBeforeYear(d.year) + DaysBeforeMonth(d.year, d.month) + d.day
  }

  /** The next day is one day number further. */
  lemma NextDayNumber(d: Date)
    requires IsValid(d)
    ensures DayNumber(NextDay(d)) == DayNumber(d) + 1
  {
    if d.day == DaysInMonth(d.year, d.month) && d.month == 12 {
      assert DaysBeforeYear(d.year + 1) == DaysBeforeYear(d.year) + DaysInYear(d.year);
    }
  }

  /** AddDays moves exactly `n` day numbers forward. */
  lemma {:induction false} AddDaysNumber(d: Date, n: nat)
    requires IsValid(d)
    ensures DayNumber(AddDays(d, n)) == DayNumber(d) + n
    decreases n
  {
    if n > 0 {
      NextDayNumber(d);
      AddDaysNumber(NextDay(d), n - 1);
    }
  }

  lemma {:induction false} DaysBeforeYearGrows(y: nat, z: nat)
    requires y < z
    ensures DaysBeforeYear(y) + DaysInYear(y) <= DaysBeforeYear(z)
    decreases z - y
  {
    if y + 1 < z {
      DaysBeforeYearGrows(y + 1, z);
    }
  }

  lemma {:induction false} DaysBeforeMonthGrows(y: int, m: int, n: int)
    requires 1 <= m < n <= 12
    ensures DaysBeforeMonth(y, m) + DaysInMonth(y, m) <= DaysBeforeMonth(y, n)
    decreases n - m
  {
    if m + 1 < n {
      DaysBeforeMonthGrows(y, m + 1, n);
    }
  }

  /** Days of a year occupy day numbers strictly after the earlier years'. */
  lemma DayNumberInYear(d: Date)
    requires IsValid(d)
    ensures DaysBeforeYear(d.year) < DayNumber(d) <= DaysBeforeYear(d.year) + DaysInYear(d.year)
  {
    if d.month < 12 {
      DaysBeforeMonthGrows(d.year, d.month, 12);
    }
  }

  /** Different days have different day numbers. */
  lemma DayNumberInjective(a: Date, b: Date)
    requires IsValid(a) && IsValid(b)
    requires DayNumber(a) == DayNumber(b)
    ensures a == b
  {
    DayNumberInYear(a);
    DayNumberInYear(b);
    if a.year < b.year {
      DaysBeforeYearGrows(a.year, b.year);
    } else if b.year < a.year {
      DaysBeforeYearGrows(b.year, a.year);
    } else if a.month < b.month {
      DaysBeforeMonthGrows(a.year, a.month, b.month);
    } else if b.month < a.month {
      DaysBeforeMonthGrows(a.year, b.month, a.month);
    }
  }

  /** AddDays gives the one valid date whose day number is `n` further on. */
  lemma AddDaysUnique(d: Date, n: nat, e: Date)
    requires IsValid(d) && IsValid(e)
    requires DayNumber(e) == DayNumber(d) + n
    ensures AddDays(d, n) == e
  {
    AddDaysNumber(d, n);
    DayNumberInjective(AddDays(d, n), e);
  }

  // ---------------------------------------------------------------------
  // the ISO calendar-date text form

  function Pow10(w: nat): nat {
    if w == 0 then 1 else 10 * Pow10(w - 1)
  }

  /** `n` as exactly `w` decimal digits, with leading zeros. */
  function PadDigits(n: nat, w: nat): (s: string)
    requires n < Pow10(w)
    ensures |s| == w
    ensures forall i :: 0 <= i < |s| ==> IsDigit(s[i])
  {
    if w == 0 then "" else PadDigits(n / 10, w - 1) + [DigitChar(n % 10)]
  }

  lemma {:induction false} ParsePadDigits(n: nat, w: nat)
    requires n < Pow10(w)
    ensures ParseNat(PadDigits(n, w)) == n
  {
    if w > 0 {
      var s := PadDigits(n, w);
      assert s[..|s| - 1] == PadDigits(n / 10, w - 1);
      ParsePadDigits(n / 10, w - 1);
    }
  }

  predicate AllDigits(s: string) {
    forall i :: 0 <= i < |s| ==> IsDigit(s[i])
  }

  lemma {:induction false} ParseNatBound(s: string)
    requires AllDigits(s)
    ensures 0 <= ParseNat(s) < Pow10(|s|)
  {
    if s != [] {
      ParseNatBound(s[..|s| - 1]);
    }
  }

  lemma {:induction false} PadParseDigits(s: string)
    requires AllDigits(s)
    ensures 0 <= ParseNat(s) < Pow10(|s|)
    ensures PadDigits(ParseNat(s), |s|) == s
  {
    ParseNatBound(s);
    if s != [] {
      var t := s[..|s| - 1];
      var c := s[|s| - 1];
      PadParseDigits(t);
      var n := ParseNat(s);
      assert n == ParseNat(t) * 10 + DigitValue(c);
      assert n / 10 == ParseNat(t) && n % 10 == DigitValue(c);
      assert DigitChar(n % 10) == c;
      assert s == t + [c];
    }
  }

  /** The date part of `toISOString()`: `YYYY-MM-DD`, and `+YYYYYY-MM-DD`
      once the year passes 9999. */
  function FormatIso(d: Date): string
    requires IsValid(d) && d.year < 1000000
  {
    (if d.year <= 9999 then PadDigits(d.year, 4) else "+" + PadDigits(d.year, 6))
      + "-" + PadDigits(d.month, 2) + "-" + PadDigits(d.day, 2)
  }

  /** `new Date(s)` for the `YYYY-MM-DD` text of a date input: None when the
      text is not such a date (JavaScript then holds an Invalid Date). */
  function ParseIso(s: string): (r: Option<Date>)
    ensures r.Some? ==> IsValid(r.value) && r.value.year <= 9999
  {
    if |s| == 10 && s[4] == '-' && s[7] == '-'
       && AllDigits(s[..4]) && AllDigits(s[5..7]) && AllDigits(s[8..])
    then
      ParseNatBound(s[..4]);
      var d := Date(ParseNat(s[..4]), ParseNat(s[5..7]), ParseNat(s[8..]));
      if IsValid(d) then Some(d) else None
    else None
  }

  /** Printing a four-digit-year date and reading it back gives the date. */
  lemma ParseFormatIso(d: Date)
    requires IsValid(d) && d.year <= 9999
    ensures ParseIso(FormatIso(d)) == Some(d)
  {
    var s := FormatIso(d);
    assert s[..4] == PadDigits(d.year, 4);
    assert s[5..7] == PadDigits(d.month, 2);
    assert s[8..] == PadDigits(d.day, 2);
    ParsePadDigits(d.year, 4);
    ParsePadDigits(d.month, 2);
    ParsePadDigits(d.day, 2);
  }

  /** A text that parses as a date is exactly that date's printed form. */
  lemma FormatParseIso(s: string)
    requires ParseIso(s).Some?
    ensures ParseIso(s).value.year <= 9999
    ensures FormatIso(ParseIso(s).value) == s
  {
    var d := ParseIso(s).value;
    var y, m, dd := s[..4], s[5..7], s[8..];
    assert d == Date(ParseNat(y), ParseNat(m), ParseNat(dd));
    PadParseDigits(y);
    PadParseDigits(m);
    PadParseDigits(dd);
    assert FormatIso(d) == y + "-" + m + "-" + dd;
    assert s == y + "-" + m + "-" + dd;
  }

  // ---------------------------------------------------------------------
  // the EDD rule

  /** Naegele's rule as the ANC form applies it: the ISO date 280 days after
      the LMP, or None when the LMP text is not a date. */
  function EddFromLmp(lmp: string): Option<string> {
    match ParseIso(lmp)
    case None => None
    case Some(d) =>
      AddDaysNumber(d, 280);
      AddDaysYearBound(d, 280);
      Some(FormatIso(AddDays(d, 280)))
  }

  /** Adding days moves the year forward by at most one per 365 days. */
  lemma {:induction false} AddDaysYearBound(d: Date, n: nat)
    requires IsValid(d)
    ensures d.year <= AddDays(d, n).year <= d.year + n
    decreases n
  {
    if n > 0 {
      AddDaysYearBound(NextDay(d), n - 1);
    }
  }

  /** The EDD of a printed date is the printed date 280 day numbers on. */
  lemma EddOfDate(lmp: Date, edd: Date)
    requires IsValid(lmp) && lmp.year <= 9999 && IsValid(edd) && edd.year < 1000000
    requires DayNumber(edd) == DayNumber(lmp) + 280
    ensures EddFromLmp(FormatIso(lmp)) == Some(FormatIso(edd))
  {
    ParseFormatIso(lmp);
    AddDaysUnique(lmp, 280, edd);
  }

  /** EddOfDate for an EDD in the year after the LMP. */
  lemma EddAcrossNewYear(lmp: Date, edd: Date)
    requires IsValid(lmp) && lmp.year <= 9999 && IsValid(edd) && edd.year == lmp.year + 1
    requires DaysInYear(lmp.year) - DaysBeforeMonth(lmp.year, lmp.month) - lmp.day
             + DaysBeforeMonth(edd.year, edd.month) + edd.day == 280
    ensures EddFromLmp(FormatIso(lmp)) == Some(FormatIso(edd))
  {
    EddOfDate(lmp, edd);
  }

  /** The printed forms of the April example's dates. */
  lemma AprilTexts(a: Date, b: Date)
    requires a == Date(2025, 4, 1) && b == Date(2026, 1, 6)
    ensures FormatIso(a) == "2025-04-01" && FormatIso(b) == "2026-01-06"
  {
  }

  /** The printed forms of the January example's dates. */
  lemma JanuaryTexts(c: Date, d: Date)
    requires c == Date(2025, 1, 1) && d == Date(2025, 10, 8)
    ensures FormatIso(c) == "2025-01-01" && FormatIso(d) == "2025-10-08"
  {
  }

  /** An LMP of 2025-04-01 gives an EDD of 2026-01-06: the year rolls over. */
  lemma EddApril(april: string)
    requires april == "2025-04-01"
    ensures EddFromLmp(april) == Some("2026-01-06")
  {
    var a, b :| a == Date(2025, 4, 1) && b == Date(2026, 1, 6);
    EddAcrossNewYear(a, b);
    AprilTexts(a, b);
  }

  /** An LMP of 2025-01-01 gives an EDD of 2025-10-08. */
  lemma EddJanuary(january: string)
    requires january == "2025-01-01"
    ensures EddFromLmp(january) == Some("2025-10-08")
  {
    var c, d :| c == Date(2025, 1, 1) && d == Date(2025, 10, 8);
    EddOfDate(c, d);
    JanuaryTexts(c, d);
  }
}
