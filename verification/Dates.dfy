/**
 * Calendar days of the proleptic Gregorian calendar (section 21.4.1 of ECMA-262): as civil
 * dates, as day numbers from 1970-01-01, and as the `YYYYMMDD` integers the program stores.
 */
module Dates {
  predicate LeapYear(year: nat) {
    year % 4 == 0 && (year % 100 != 0 || year % 400 == 0)
  }

  function DaysInMonth(year: nat, month: nat): nat {
    if month == 2 then (if LeapYear(year) then 29 else 28)
    else if month == 4 || month == 6 || month == 9 || month == 11 then 30
    else 31
  }

  function DaysInYear(year: nat): nat { if LeapYear(year) then 366 else 365 }

  datatype Civil = Civil(year: nat, month: nat, day: nat)
  {
    predicate Real() {
      1 <= month <= 12 && 1 <= day <= DaysInMonth(year, month)
    }

    /** Calendar order. */
    predicate Before(other: Civil) {
      year < other.year || (year == other.year && (month < other.month || (month == other.month && day < other.day)))
    }
  }

  /**
   * The Gregorian calendar: months have 31 days but April, June, September and November with 30,
   * and February with 28, or 29 in years divisible by 4, of the full centuries those by 400.
   */
  lemma {:induction false} CalendarIsGregorian(year: nat, month: nat, day: nat)
    ensures Civil(year, month, day).Real() <==>
      && 1 <= month <= 12 && 1 <= day
      && day <= [31, if year % 400 == 0 || (year % 4 == 0 && year % 100 != 0) then 29 else 28, 31, 30, 31, 30, 31, 31, 30, 31, 30, 31][month - 1]
  {}

  // ---- day numbers ----

  /** Day number of January 1st. */
  function DayFromYear(year: nat): int {
    365 * (year - 1970) + (year - 1969) / 4 - (year - 1901) / 100 + (year - 1601) / 400
  }

  /** Days of the year before its month `month`. */
  function DaysBefore(year: nat, month: nat): nat
    requires 1 <= month <= 13
  {
    [0, 31, 59, 90, 120, 151, 181, 212, 243, 273, 304, 334, 365][month - 1] + if month > 2 && LeapYear(year) then 1 else 0
  }

  function ToDay(c: Civil): int
    requires c.Real()
  {
    DayFromYear(c.year) + DaysBefore(c.year, c.month) + c.day - 1
  }

  const FIRST_DAY: int := DayFromYear(0)

  /** Days are counted from January 1st of 1970. */
  lemma {:induction false} CountedFrom1970()
    ensures ToDay(Civil(1970, 1, 1)) == 0 && ToDay(Civil(1969, 12, 31)) == -1 && ToDay(Civil(2000, 3, 1)) == 11_017
  {}

  /** The last year, from `year` on, that begins on or before day `n`. */
  function YearFrom(n: int, year: nat): (y: nat)
    requires DayFromYear(year) <= n
    ensures DayFromYear(y) <= n < DayFromYear(y + 1)
    decreases n - DayFromYear(year)
  {
    YearsAdd(year);
    if n < DayFromYear(year + 1) then year else YearFrom(n, year + 1)
  }

  /** The month, from `month` on, that holds the `k`-th day of the year. */
  function MonthFrom(year: nat, month: nat, k: nat): (m: nat)
    requires 1 <= month <= 12 && DaysBefore(year, month) <= k < DaysInYear(year)
    ensures month <= m <= 12 && DaysBefore(year, m) <= k < DaysBefore(year, m) + DaysInMonth(year, m)
    decreases 12 - month
  {
    MonthsAdd(year);
    if k < DaysBefore(year, month) + DaysInMonth(year, month) then month else MonthFrom(year, month + 1, k)
  }

  function FromDay(n: int): (c: Civil)
    requires FIRST_DAY <= n
    ensures c.Real() && ToDay(c) == n
  {
    var year := YearFrom(n, 0);
    YearsAdd(year);
    var k := n - DayFromYear(year);
    var month := MonthFrom(year, 1, k);
    Civil(year, month, k - DaysBefore(year, month) + 1)
  }

  lemma {:induction false} YearsAdd(year: nat)
    ensures DayFromYear(year + 1) == DayFromYear(year) + DaysInYear(year)
  {
    FourthYear(year);
    HundredthYear(year);
    FourHundredthYear(year);
    CenturiesAreFourths(year);
  }

  lemma {:induction false} FourthYear(year: nat)
    ensures (year - 1968) / 4 == (year - 1969) / 4 + if year % 4 == 0 then 1 else 0
  {}

  lemma {:induction false} HundredthYear(year: nat)
    ensures (year - 1900) / 100 == (year - 1901) / 100 + if year % 100 == 0 then 1 else 0
  {}

  lemma {:induction false} FourHundredthYear(year: nat)
    ensures (year - 1600) / 400 == (year - 1601) / 400 + if year % 400 == 0 then 1 else 0
  {}

  lemma {:induction false} CenturiesAreFourths(year: nat)
    ensures year % 400 == 0 ==> year % 100 == 0
    ensures year % 100 == 0 ==> year % 4 == 0
  {
    assert year % 400 == 0 ==> year == 100 * (4 * (year / 400));
    assert year % 100 == 0 ==> year == 4 * (25 * (year / 100));
  }

  lemma {:induction false} MonthsAdd(year: nat)
    ensures DaysBefore(year, 1) == 0 && DaysBefore(year, 13) == DaysInYear(year)
    ensures forall m: nat {:trigger DaysInMonth(year, m)} :: 1 <= m <= 12 ==> DaysBefore(year, m) + DaysInMonth(year, m) == DaysBefore(year, m + 1)
    ensures forall m, n: nat {:trigger DaysBefore(year, m), DaysBefore(year, n)} :: 1 <= m <= n <= 13 ==> DaysBefore(year, m) <= DaysBefore(year, n)
  {}

  lemma {:induction false} YearsGrow(a: nat, b: nat)
    requires a < b
    ensures DayFromYear(a) + DaysInYear(a) <= DayFromYear(b)
  {
    YearsAdd(b - 1);
    if a < b - 1 {
      YearsGrow(a, b - 1);
    }
  }

  lemma {:induction false} InYear(c: Civil)
    requires c.Real()
    ensures DayFromYear(c.year) <= ToDay(c) < DayFromYear(c.year) + DaysInYear(c.year)
  {
    MonthsAdd(c.year);
  }

  /** Day numbers follow the calendar. */
  lemma {:induction false} DaysInOrder(a: Civil, b: Civil)
    requires a.Real() && b.Real()
    ensures a.Before(b) <==> ToDay(a) < ToDay(b)
  {
    if a.Before(b) {
      Earlier(a, b);
    } else if b.Before(a) {
      Earlier(b, a);
    } else {
      assert a == b;
    }
  }

  lemma {:induction false} Earlier(a: Civil, b: Civil)
    requires a.Real() && b.Real() && a.Before(b)
    ensures ToDay(a) < ToDay(b)
  {
    if a.year < b.year {
      InYear(a);
      InYear(b);
      YearsGrow(a.year, b.year);
    } else if a.month < b.month {
      MonthsAdd(a.year);
      assert DaysBefore(a.year, a.month + 1) <= DaysBefore(a.year, b.month);
    }
  }

  /** Nothing is lost between civil dates and day numbers. */
  lemma {:induction false} FromDayOfToDay(c: Civil)
    requires c.Real()
    ensures FIRST_DAY <= ToDay(c) && FromDay(ToDay(c)) == c
  {
    InYear(c);
    if c.year > 0 {
      YearsGrow(0, c.year);
    }
    DaysInOrder(c, FromDay(ToDay(c)));
    DaysInOrder(FromDay(ToDay(c)), c);
  }

  // ---- YYYYMMDD ----

  type Date = nat

  function Number(c: Civil): Date { c.year * 10_000 + c.month * 100 + c.day }

  function CivilOf(date: Date): Civil { Civil(date / 10_000, date / 100 % 100, date % 100) }

  /** A real calendar day of the years 2000 to 9999. */
  predicate IsDateNumber(date: Date) {
    2000 <= CivilOf(date).year <= 9999 && CivilOf(date).Real()
  }

  lemma {:induction false} NumberRoundTrip(c: Civil)
    requires c.Real()
    ensures CivilOf(Number(c)) == c
  {
    assert Number(c) / 100 == c.year * 100 + c.month;
  }

  lemma {:induction false} CivilRoundTrip(date: Date)
    ensures Number(CivilOf(date)) == date
  {
    assert date == date / 10_000 * 10_000 + date % 10_000;
    assert date / 100 == date / 10_000 * 100 + date / 100 % 100;
  }

  /** Ordering the integers orders the days. */
  lemma {:induction false} NumbersInOrder(a: Date, b: Date)
    requires CivilOf(a).Real() && CivilOf(b).Real()
    ensures a < b <==> CivilOf(a).Before(CivilOf(b))
  {
    CivilRoundTrip(a);
    CivilRoundTrip(b);
  }

  function DayOf(date: Date): (n: int)
    requires IsDateNumber(date)
  {
    ToDay(CivilOf(date))
  }

  /** Days from 2000-01-01 to 9999-12-31. */
  predicate InRange(n: int) {
    DayFromYear(2000) <= n < DayFromYear(10_000)
  }

  function DateOf(n: int): Date
    requires InRange(n)
  {
    YearsGrow(0, 2000);
    Number(FromDay(n))
  }

  /** Dates and day numbers convert back and forth without loss. */
  lemma {:induction false} DateRoundTrip(date: Date)
    requires IsDateNumber(date)
    ensures InRange(DayOf(date)) && DateOf(DayOf(date)) == date
  {
    hide ToDay, Civil.Real, DayFromYear;
    var c := CivilOf(date);
    InYear(c);
    YearsAdd(c.year);
    if c.year > 2000 {
      YearsGrow(2000, c.year);
    }
    if c.year < 9999 {
      YearsGrow(c.year, 10_000);
    }
    FromDayOfToDay(c);
    CivilRoundTrip(date);
  }

  lemma {:induction false} DayRoundTrip(n: int)
    requires InRange(n)
    ensures IsDateNumber(DateOf(n)) && DayOf(DateOf(n)) == n
  {
    YearsGrow(0, 2000);
    var c := FromDay(n);
    InYear(c);
    NumberRoundTrip(c);
    if c.year < 2000 {
      YearsGrow(c.year, 2000);
    } else if c.year >= 10_000 {
      if c.year > 10_000 {
        YearsGrow(10_000, c.year);
      }
    }
  }

  /** Dates and day numbers are in the same order. */
  lemma {:induction false} DatesInOrder(a: Date, b: Date)
    requires IsDateNumber(a) && IsDateNumber(b)
    ensures a < b <==> DayOf(a) < DayOf(b)
  {
    NumbersInOrder(a, b);
    DaysInOrder(CivilOf(a), CivilOf(b));
  }

  // ---- adding and listing days ----

  function AddDays(date: Date, days: int): Date
    requires IsDateNumber(date) && InRange(DayOf(date) + days)
  {
    DateOf(DayOf(date) + days)
  }

  lemma {:induction false} AddDaysComposes(date: Date, a: int, b: int)
    requires IsDateNumber(date) && InRange(DayOf(date) + a) && InRange(DayOf(date) + a + b)
    ensures IsDateNumber(AddDays(date, a)) && InRange(DayOf(AddDays(date, a)) + b)
    ensures AddDays(AddDays(date, a), b) == AddDays(date, a + b)
  {
    hide DayOf, DateOf, IsDateNumber, InRange;
    DayRoundTrip(DayOf(date) + a);
  }

  function Count(start: Date, end: Date): nat
    requires IsDateNumber(start) && IsDateNumber(end)
  {
    if DayOf(end) < DayOf(start) then 0 else DayOf(end) - DayOf(start) + 1
  }

  /** Every day from `start` to `end`, both included; empty when `end` is before `start`. */
  method EachDay(start: Date, end: Date) returns (days: seq<Date>)
    requires IsDateNumber(start) && IsDateNumber(end)
    ensures forall d: nat :: d in days <==> IsDateNumber(d) && start <= d <= end
    ensures forall i, j :: 0 <= i < j < |days| ==> days[i] < days[j]
    ensures |days| == Count(start, end) && forall k :: 0 <= k < |days| ==> IsDateNumber(days[k]) && DayOf(days[k]) == DayOf(start) + k
  {
    hide DayOf, DateOf, IsDateNumber, InRange;
    days := [];
    DateRoundTrip(start);
    DateRoundTrip(end);
    var n := DayOf(start);
    while n <= DayOf(end)
      invariant n == DayOf(start) + |days| && n <= (if DayOf(end) < DayOf(start) then DayOf(start) else DayOf(end) + 1)
      invariant forall k :: 0 <= k < |days| ==> IsDateNumber(days[k]) && DayOf(days[k]) == DayOf(start) + k
      decreases DayOf(end) - n
    {
      Between(DayOf(start), DayOf(end), n);
      DayRoundTrip(n);
      days := days + [DateOf(n)];
      n := n + 1;
    }
    Listed(start, end, days);
  }

  lemma {:induction false} Between(a: int, b: int, n: int)
    requires InRange(a) && InRange(b) && a <= n <= b
    ensures InRange(n)
  {}

  lemma {:induction false} Listed(start: Date, end: Date, days: seq<Date>)
    requires IsDateNumber(start) && IsDateNumber(end) && |days| == Count(start, end)
    requires forall k :: 0 <= k < |days| ==> IsDateNumber(days[k]) && DayOf(days[k]) == DayOf(start) + k
    ensures forall d: nat :: d in days <==> IsDateNumber(d) && start <= d <= end
    ensures forall i, j :: 0 <= i < j < |days| ==> days[i] < days[j]
  {
    hide DayOf, DateOf, IsDateNumber, InRange;
    forall d | d in days ensures IsDateNumber(d) && start <= d <= end {
      DatesInOrder(d, start);
      DatesInOrder(end, d);
    }
    forall d: nat | IsDateNumber(d) && start <= d <= end ensures d in days {
      DatesInOrder(d, start);
      DatesInOrder(end, d);
      var k := DayOf(d) - DayOf(start);
      DateRoundTrip(d);
      DateRoundTrip(days[k]);
      assert days[k] == d;
    }
    forall i, j | 0 <= i < j < |days| ensures days[i] < days[j] {
      DatesInOrder(days[i], days[j]);
    }
  }
}
