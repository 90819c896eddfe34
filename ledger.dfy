/** The income ledger: `loadIncomeLedger` keeps the entries whose date parses
    and falls in the chosen period, and shows the sum of their amounts.
    "Today" is the local calendar date of the clock, a parameter here. */
module Ledger {
  import opened Seqs
  import opened Dates
  import opened Records

  datatype LedgerFilter = Today | Week | Month | All

  /** `weekStart.setDate(today.getDate() - today.getDay())`, as a day number. */
  function WeekStart(today: CalendarDate): int
    requires ValidDate(today)
  {
    DayNumber(today) - Weekday(DayNumber(today))
  }

  /** `new Date(today.getFullYear(), today.getMonth(), 1)`. */
  function MonthStart(today: CalendarDate): (first: CalendarDate)
    requires ValidDate(today)
    ensures ValidDate(first)
  {
    CalendarDate(today.year, today.month, 1)
  }

  predicate InPeriod(d: CalendarDate, filter: LedgerFilter, today: CalendarDate)
    requires ValidDate(d) && ValidDate(today)
  {
    match filter
    case Today => DayNumber(d) == DayNumber(today)
    case Week => DayNumber(d) >= WeekStart(today)
    case Month => DayNumber(d) >= DayNumber(MonthStart(today))
    case All => true
  }

  /** The filter callback: an entry whose date does not parse is dropped. */
  predicate Keep(e: IncomeEntry, filter: LedgerFilter, today: CalendarDate)
    requires ValidDate(today)
  {
    match ParseDateString(e.date)
    case None => false
    case Some(d) => InPeriod(d, filter, today)
  }

  function KeepIn(filter: LedgerFilter, today: CalendarDate): IncomeEntry -> bool
    requires ValidDate(today)
  {
    e => Keep(e, filter, today)
  }

  function FilterLedger(entries: seq<IncomeEntry>, filter: LedgerFilter, today: CalendarDate): (r: seq<IncomeEntry>)
    requires ValidDate(today)
    ensures forall e :: e in r <==> e in entries && Keep(e, filter, today)
    ensures forall e :: e in r ==> ParseDateString(e.date).Some?
  {
    Filter(entries, KeepIn(filter, today))
  }

  function Amount(e: IncomeEntry): real
  {
    e.amount
  }

  /** `filteredEntries.reduce((sum, e) => sum + Number(e.amount || 0), 0)`. */
  function LedgerRevenue(entries: seq<IncomeEntry>, filter: LedgerFilter, today: CalendarDate): real
    requires ValidDate(today)
  {
    Sum(FilterLedger(entries, filter, today), Amount)
  }

  lemma BackToSunday(n: int)
    ensures Weekday(n - Weekday(n)) == 0
    ensures 0 <= Weekday(n) <= 6
  {
    assert (n - Weekday(n) + 4) % 7 == 0;
  }

  /** The week starts on the most recent Sunday, at most six days back. */
  lemma WeekStartIsSunday(today: CalendarDate)
    requires ValidDate(today)
    ensures Weekday(WeekStart(today)) == 0
    ensures DayNumber(today) - 6 <= WeekStart(today) <= DayNumber(today)
  {
    BackToSunday(DayNumber(today));
  }

  /** "Today" keeps exactly the entries dated today. */
  lemma TodayMeansSameDate(entries: seq<IncomeEntry>, today: CalendarDate, e: IncomeEntry)
    requires ValidDate(today)
    ensures e in FilterLedger(entries, Today, today) <==>
            e in entries && ParseDateString(e.date) == Some(today)
  {
    match ParseDateString(e.date)
    case None =>
    case Some(d) => DayNumberOrder(d, today);
  }

  /** "Month" keeps the entries dated in this calendar month or later. */
  lemma MonthMeansCalendarMonth(entries: seq<IncomeEntry>, today: CalendarDate, e: IncomeEntry)
    requires ValidDate(today)
    ensures e in FilterLedger(entries, Month, today) <==>
            e in entries && ParseDateString(e.date).Some? &&
            var d := ParseDateString(e.date).value;
            d.year > today.year || (d.year == today.year && d.month >= today.month)
  {
    match ParseDateString(e.date)
    case None =>
    case Some(d) => DayNumberOrder(MonthStart(today), d);
  }

  /** Every period keeps at least what a narrower one keeps: today's entries
      are this week's and this month's, and every kept entry is in "all". */
  lemma PeriodsNest(e: IncomeEntry, today: CalendarDate)
    requires ValidDate(today)
    ensures Keep(e, Today, today) ==> Keep(e, Week, today) && Keep(e, Month, today)
    ensures Keep(e, Week, today) || Keep(e, Month, today) ==> Keep(e, All, today)
  {
    match ParseDateString(e.date)
    case None =>
    case Some(d) =>
      if DayNumber(d) == DayNumber(today) {
        DayNumberOrder(MonthStart(today), today);
      }
  }

  /** With non-negative amounts, the revenue shown grows with the period. */
  lemma RevenueGrowsWithPeriod(entries: seq<IncomeEntry>, today: CalendarDate)
    requires ValidDate(today)
    requires forall i :: 0 <= i < |entries| ==> entries[i].amount >= 0.0
    ensures LedgerRevenue(entries, Today, today) <= LedgerRevenue(entries, Week, today)
    ensures LedgerRevenue(entries, Today, today) <= LedgerRevenue(entries, Month, today)
    ensures LedgerRevenue(entries, Week, today) <= LedgerRevenue(entries, All, today)
    ensures LedgerRevenue(entries, Month, today) <= LedgerRevenue(entries, All, today)
  {
    forall i | 0 <= i < |entries|
      ensures Keep(entries[i], Today, today) ==> Keep(entries[i], Week, today) && Keep(entries[i], Month, today)
      ensures Keep(entries[i], Week, today) || Keep(entries[i], Month, today) ==> Keep(entries[i], All, today)
    {
      PeriodsNest(entries[i], today);
    }
    SumFilterMonotone(entries, KeepIn(Today, today), KeepIn(Week, today), Amount);
    SumFilterMonotone(entries, KeepIn(Today, today), KeepIn(Month, today), Amount);
    SumFilterMonotone(entries, KeepIn(Week, today), KeepIn(All, today), Amount);
    SumFilterMonotone(entries, KeepIn(Month, today), KeepIn(All, today), Amount);
  }
}
