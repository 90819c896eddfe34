/** Calendar dates as the dashboard reads them: `parseDateString` turns a
    "YYYY-MM-DD" text into a date or rejects it, and every date comparison
    the dashboard makes (sorting logs, the 7-day window, the income ledger,
    days since stocking) is a comparison of day numbers. */
module Dates {
  import opened Seqs

  /** A date in the proleptic Gregorian calendar; `month` runs 1..12. */
  datatype CalendarDate = CalendarDate(year: int, month: int, day: int)

  predicate IsLeapYear(y: int)
  {
    y % 4 == 0 && (y % 100 != 0 || y % 400 == 0)
  }

  function DaysInYear(y: int): int
  {
    if IsLeapYear(y) then 366 else 365
  }

  function DaysInMonth(y: int, m: int): int
    requires 1 <= m <= 12
  {
    if m == 2 then (if IsLeapYear(y) then 29 else 28)
    else if m == 4 || m == 6 || m == 9 || m == 11 then 30
    else 31
  }

  predicate ValidDate(d: CalendarDate)
  {
    1 <= d.month <= 12 && 1 <= d.day <= DaysInMonth(d.year, d.month)
  }

  // ---------------------------------------------------------------------------
  // Text: String.prototype.split and parseInt(_, 10)
  // ---------------------------------------------------------------------------

  /** `s.split(sep)` for a one-character separator. */
  function Split(s: string, sep: char): (parts: seq<string>)
    ensures |parts| >= 1
    ensures forall i :: 0 <= i < |parts| ==> sep !in parts[i]
  {
    if |s| == 0 then [""]
    else
      var rest := Split(s[1..], sep);
      if s[0] == sep then [""] + rest
      else [[s[0]] + rest[0]] + rest[1..]
  }

  predicate IsDigit(c: char)
  {
    '0' <= c <= '9'
  }

  predicate AllDigits(s: string)
  {
    forall i :: 0 <= i < |s| ==> IsDigit(s[i])
  }

  /** The white space `parseInt` skips before the number: ECMAScript's
      WhiteSpace and LineTerminator characters (tab, vertical tab, form feed,
      the byte order mark, every space separator of category Zs, line feed,
      carriage return, and the line and paragraph separators). */
  predicate IsSpace(c: char)
  {
    c == '\t' || c == '\U{000B}' || c == '\U{000C}' || c == ' ' || c == '\U{00A0}' || c == '\U{FEFF}'
    || c == '\U{1680}' || ('\U{2000}' <= c <= '\U{200A}') || c == '\U{202F}' || c == '\U{205F}' || c == '\U{3000}'
    || c == '\n' || c == '\r' || c == '\U{2028}' || c == '\U{2029}'
  }

  function TrimStart(s: string): (r: string)
    ensures |r| > 0 ==> !IsSpace(r[0]) && r[0] in s
  {
    if |s| > 0 && IsSpace(s[0]) then TrimStart(s[1..]) else s
  }

  /** The longest prefix of `s` made of decimal digits. */
  function DigitPrefix(s: string): (r: string)
    ensures AllDigits(r) && |r| <= |s| && r == s[..|r|]
    ensures |r| < |s| ==> !IsDigit(s[|r|])
  {
    if |s| > 0 && IsDigit(s[0]) then [s[0]] + DigitPrefix(s[1..]) else ""
  }

  function DigitsValue(ds: string): nat
    requires AllDigits(ds)
  {
    if |ds| == 0 then 0
    else DigitsValue(ds[..|ds| - 1]) * 10 + (ds[|ds| - 1] as int - '0' as int)
  }

  /** `parseInt(s, 10)`: optional white space and sign, then the longest run of
      digits; `None` stands for NaN, when there is no digit at all. */
  function ParseInt(s: string): (r: Option<int>)
    ensures '-' !in s && r.Some? ==> r.value >= 0
  {
    var t := TrimStart(s);
    var negative := |t| > 0 && t[0] == '-';
    var u := if |t| > 0 && (t[0] == '+' || t[0] == '-') then t[1..] else t;
    var ds := DigitPrefix(u);
    if |ds| == 0 then None
    else if negative then Some(0 - DigitsValue(ds) as int)
    else Some(DigitsValue(ds))
  }

  // ---------------------------------------------------------------------------
  // parseDateString
  // ---------------------------------------------------------------------------

  /** A `Date` holds at most 8.64e15 ms either side of 1970-01-01, that is
      100,000,000 days; `new Date(y, m, d)` past that is an Invalid Date. */
  const MaxDayNumber: int := 100000000

  predicate InTimeRange(d: CalendarDate)
    requires 1 <= d.month <= 12
  {
    -MaxDayNumber <= DayNumber(d) <= MaxDayNumber
  }

  /** `parseDateString` (index.tsx and App.tsx): three dash-separated integers
      that name a real calendar date which a `Date` can hold. `new Date(y, m, d)`
      moves years 0..99 to 19xx, so its round-trip check rejects those years as
      well, and an Invalid Date fails it too. */
  function ParseDateString(s: string): (r: Option<CalendarDate>)
    ensures r.Some? ==> ValidDate(r.value) && r.value.year >= 100 && InTimeRange(r.value)
    ensures r.Some? ==>
      && |Split(s, '-')| == 3
      && ParseInt(Split(s, '-')[0]) == Some(r.value.year)
      && ParseInt(Split(s, '-')[1]) == Some(r.value.month)
      && ParseInt(Split(s, '-')[2]) == Some(r.value.day)
  {
    var parts := Split(s, '-');
    if |parts| != 3 then None
    else
      match (ParseInt(parts[0]), ParseInt(parts[1]), ParseInt(parts[2]))
      case (Some(y), Some(m), Some(d)) =>
        var date := CalendarDate(y, m, d);
        if ValidDate(date) && !(0 <= y < 100) && InTimeRange(date) then Some(date) else None
      case _ => None
  }

  // ---------------------------------------------------------------------------
  // The ISO text of a date (what toISOString().split('T')[0] produces)
  // ---------------------------------------------------------------------------

  function Pow10(w: nat): nat
  {
    if w == 0 then 1 else 10 * Pow10(w - 1)
  }

  /** `n` written with exactly `w` decimal digits, zero-padded. */
  function Digits(n: nat, w: nat): (r: string)
    requires n < Pow10(w)
    ensures |r| == w && AllDigits(r)
  {
    if w == 0 then ""
    else Digits(n / 10, w - 1) + [('0' as int + n % 10) as char]
  }

  function IsoDate(d: CalendarDate): string
    requires ValidDate(d) && 0 <= d.year <= 9999
  {
    Digits(d.year, 4) + "-" + Digits(d.month, 2) + "-" + Digits(d.day, 2)
  }

  lemma {:induction false} DigitsValueOfDigits(n: nat, w: nat)
    requires n < Pow10(w)
    ensures DigitsValue(Digits(n, w)) == n
  {
    if w > 0 {
      assert n / 10 < Pow10(w - 1);
      DigitsValueOfDigits(n / 10, w - 1);
      var ds := Digits(n, w);
      assert ds[..|ds| - 1] == Digits(n / 10, w - 1);
    }
  }

  lemma {:induction false} DigitPrefixOfDigits(s: string)
    requires AllDigits(s)
    ensures DigitPrefix(s) == s
  {
    if |s| > 0 {
      DigitPrefixOfDigits(s[1..]);
    }
  }

  /** A nonempty run of digits parses to its decimal value. */
  lemma ParseIntOfDigits(s: string)
    requires 0 < |s| && AllDigits(s)
    ensures ParseInt(s) == Some(DigitsValue(s))
  {
    assert IsDigit(s[0]);
    assert TrimStart(s) == s;
    DigitPrefixOfDigits(s);
  }

  lemma {:induction false} SplitNoSeparator(s: string, sep: char)
    requires sep !in s
    ensures Split(s, sep) == [s]
  {
    if |s| > 0 {
      SplitNoSeparator(s[1..], sep);
      assert [s[0]] + s[1..] == s;
    }
  }

  lemma {:induction false} SplitAtSeparator(a: string, sep: char, b: string)
    requires sep !in a
    ensures Split(a + [sep] + b, sep) == [a] + Split(b, sep)
  {
    if |a| == 0 {
      assert a + [sep] + b == [sep] + b;
      assert ([sep] + b)[1..] == b;
    } else {
      assert (a + [sep] + b)[1..] == a[1..] + [sep] + b;
      SplitAtSeparator(a[1..], sep, b);
      assert [a[0]] + a[1..] == a;
    }
  }

  lemma SplitIsoDate(d: CalendarDate)
    requires ValidDate(d) && 0 <= d.year <= 9999
    ensures Split(IsoDate(d), '-') == [Digits(d.year, 4), Digits(d.month, 2), Digits(d.day, 2)]
  {
    var y, m, dd := Digits(d.year, 4), Digits(d.month, 2), Digits(d.day, 2);
    assert '-' !in y && '-' !in m && '-' !in dd by {
      assert AllDigits(y) && AllDigits(m) && AllDigits(dd);
    }
    assert IsoDate(d) == y + ['-'] + (m + ['-'] + dd);
    SplitAtSeparator(y, '-', m + ['-'] + dd);
    SplitAtSeparator(m, '-', dd);
    SplitNoSeparator(dd, '-');
  }

  lemma ParseDateParts(s: string, d: CalendarDate)
    requires ValidDate(d) && d.year >= 100 && InTimeRange(d)
    requires |Split(s, '-')| == 3
    requires ParseInt(Split(s, '-')[0]) == Some(d.year)
    requires ParseInt(Split(s, '-')[1]) == Some(d.month)
    requires ParseInt(Split(s, '-')[2]) == Some(d.day)
    ensures ParseDateString(s) == Some(d)
  {
  }

  /** Every date with a four-digit year is within a `Date`'s range. */
  lemma FourDigitYearsInRange(d: CalendarDate)
    requires ValidDate(d) && 0 <= d.year <= 9999
    ensures InTimeRange(d)
  {
    assert 0 <= Leaps(d.year - 1) + 1 <= 2500 + 1;
  }

  /** Parsing the ISO text of a date gives that date back (years 100..9999). */
  lemma ParseIsoDate(d: CalendarDate)
    requires ValidDate(d) && 100 <= d.year <= 9999
    ensures ParseDateString(IsoDate(d)) == Some(d)
  {
    var y, m, dd := Digits(d.year, 4), Digits(d.month, 2), Digits(d.day, 2);
    SplitIsoDate(d);
    ParseIntOfDigits(y);
    ParseIntOfDigits(m);
    ParseIntOfDigits(dd);
    DigitsValueOfDigits(d.year, 4);
    DigitsValueOfDigits(d.month, 2);
    DigitsValueOfDigits(d.day, 2);
    FourDigitYearsInRange(d);
    ParseDateParts(IsoDate(d), d);
  }

  // ---------------------------------------------------------------------------
  // Day numbers: days since 1970-01-01 (Date.getTime() / 86400000 in UTC)
  // ---------------------------------------------------------------------------

  /** Leap years among 1..n (floored for n < 0). */
  function Leaps(n: int): int
  {
    n / 4 - n / 100 + n / 400
  }

  function DaysBeforeYear(y: int): int
  {
    365 * (y - 1970) + Leaps(y - 1) - Leaps(1969)
  }

  function DaysBeforeMonth(y: int, m: int): int
    requires 1 <= m <= 12
  {
    var leap := if IsLeapYear(y) then 1 else 0;
    match m
    case 1 => 0
    case 2 => 31
    case 3 => 59 + leap
    case 4 => 90 + leap
    case 5 => 120 + leap
    case 6 => 151 + leap
    case 7 => 181 + leap
    case 8 => 212 + leap
    case 9 => 243 + leap
    case 10 => 273 + leap
    case 11 => 304 + leap
    case _ => 334 + leap
  }

  function DayNumber(d: CalendarDate): int
    requires 1 <= d.month <= 12
  {
    DaysBeforeYear(d.year) + DaysBeforeMonth(d.year, d.month) + d.day - 1
  }

  /** `date.getDay()`: 0 is Sunday; 1970-01-01 was a Thursday. */
  function Weekday(dayNumber: int): (w: int)
    ensures 0 <= w < 7
  {
    (dayNumber + 4) % 7
  }

  /** Strictly earlier in calendar order. */
  predicate Earlier(a: CalendarDate, b: CalendarDate)
  {
    a.year < b.year
    || (a.year == b.year && a.month < b.month)
    || (a.year == b.year && a.month == b.month && a.day < b.day)
  }

  lemma StepBy4(y: int)
    ensures y / 4 - (y - 1) / 4 == if y % 4 == 0 then 1 else 0
  {
  }

  lemma StepBy100(y: int)
    ensures y / 100 - (y - 1) / 100 == if y % 100 == 0 then 1 else 0
  {
  }

  lemma StepBy400(y: int)
    ensures y / 400 - (y - 1) / 400 == if y % 400 == 0 then 1 else 0
  {
  }

  lemma Div400(y: int)
    ensures y % 400 == 0 ==> y % 100 == 0
  {
    if y % 400 == 0 {
      var q := y / 400;
      assert y == 400 * q;
      assert y == 100 * (4 * q) + 0;
    }
  }

  lemma Div100(y: int)
    ensures y % 100 == 0 ==> y % 4 == 0
  {
    if y % 100 == 0 {
      var q := y / 100;
      assert y == 100 * q;
      assert y == 4 * (25 * q) + 0;
    }
  }

  /** A year adds its own length to the day count. */
  lemma YearLength(y: int)
    ensures DaysBeforeYear(y + 1) == DaysBeforeYear(y) + DaysInYear(y)
  {
    StepBy4(y);
    StepBy100(y);
    StepBy400(y);
    Div400(y);
    Div100(y);
    assert Leaps(y) - Leaps(y - 1) == DaysInYear(y) - 365;
  }

  lemma DayOfYearRange(d: CalendarDate)
    requires ValidDate(d)
    ensures 0 <= DaysBeforeMonth(d.year, d.month) + d.day - 1 < DaysInYear(d.year)
  {
  }

  lemma {:induction false} YearsAdvance(y1: int, y2: int)
    requires y1 < y2
    ensures DaysBeforeYear(y1) + DaysInYear(y1) <= DaysBeforeYear(y2)
    decreases y2 - y1
  {
    YearLength(y1);
    if y1 + 1 < y2 {
      YearsAdvance(y1 + 1, y2);
    }
  }

  /** Day numbers follow calendar order. */
  lemma DayNumberMonotone(a: CalendarDate, b: CalendarDate)
    requires ValidDate(a) && ValidDate(b) && Earlier(a, b)
    ensures DayNumber(a) < DayNumber(b)
  {
    if a.year < b.year {
      DayOfYearRange(a);
      DayOfYearRange(b);
      YearsAdvance(a.year, b.year);
    }
  }

  /** Comparing day numbers is comparing calendar dates, in both directions. */
  lemma DayNumberOrder(a: CalendarDate, b: CalendarDate)
    requires ValidDate(a) && ValidDate(b)
    ensures DayNumber(a) <= DayNumber(b) <==> !Earlier(b, a)
    ensures DayNumber(a) == DayNumber(b) <==> a == b
  {
    if Earlier(a, b) {
      DayNumberMonotone(a, b);
    } else if Earlier(b, a) {
      DayNumberMonotone(b, a);
    }
  }
}
