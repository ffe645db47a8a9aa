/** Calendar days as `YYYY-MM-DD` text, and their conversions. */
module IsoDates {
  import opened Wrappers
  import opened Dates
  import opened Decimals

  // ---- digits ----

  /** `Number(text)` of decimal digits. */
  function Value(s: string): nat
    requires AllDigits(s)
  {
    if s == "" then 0 else 10 * Value(s[..|s| - 1]) + DigitValue(s[|s| - 1])
  }

  /** The last `width` decimal digits of `n`, padded with zeros. */
  function Digits(n: nat, width: nat): (s: string)
    ensures |s| == width && AllDigits(s)
  {
    if width == 0 then "" else Digits(n / 10, width - 1) + [DigitOf(n % 10)]
  }

  lemma {:induction false} ValueOfDigits(n: nat, width: nat)
    requires n < Pow10(width)
    ensures Value(Digits(n, width)) == n
  {
    if width > 0 {
      ValueOfDigits(n / 10, width - 1);
      assert Digits(n, width)[..width - 1] == Digits(n / 10, width - 1);
    }
  }

  lemma {:induction false} DigitsOfValue(s: string)
    requires AllDigits(s)
    ensures Value(s) < Pow10(|s|) && Digits(Value(s), |s|) == s
  {
    if s != "" {
      var init, last := s[..|s| - 1], s[|s| - 1];
      DigitsOfValue(init);
      assert Value(s) == 10 * Value(init) + DigitValue(last) && Pow10(|s|) == 10 * Pow10(|init|);
      hide Digits, Value, Pow10;
      TenTimes(Value(init), DigitValue(last));
      DigitsLast(Value(s), |s|);
      assert [DigitOf(DigitValue(last))] == [last];
    }
  }

  lemma {:induction false} TenTimes(v: nat, d: nat)
    requires d < 10
    ensures (10 * v + d) / 10 == v && (10 * v + d) % 10 == d
  {}

  lemma {:induction false} DecimalIsDigits(n: nat, width: nat)
    requires width > 0 && (if width == 1 then n < 10 else Pow10(width - 1) <= n < Pow10(width))
    ensures Decimal(n) == Digits(n, width)
  {
    if width == 1 {
      assert Digits(n, 1) == Digits(n / 10, 0) + [DigitOf(n)] == [DigitOf(n)];
    } else {
      assert width == 2 ==> Pow10(1) == 10 * Pow10(0) == 10;
      assert width > 2 ==> Pow10(width - 1) == 10 * Pow10(width - 2) && Pow10(width - 2) == 10 * Pow10(width - 3);
      Pow10IsPositive(width - 1);
      DecimalIsDigits(n / 10, width - 1);
    }
  }

  // ---- comparing text ----

  /** `a < b` of strings. */
  predicate Less(a: string, b: string) {
    b != "" && (a == "" || a[0] < b[0] || (a[0] == b[0] && Less(a[1..], b[1..])))
  }

  lemma {:induction false} LessAppend(a: string, b: string, x: string, y: string)
    requires |a| == |b|
    ensures Less(a + x, b + y) <==> Less(a, b) || (a == b && Less(x, y))
  {
    if a == "" {
      assert a + x == x && b + y == y;
    } else {
      assert (a + x)[1..] == a[1..] + x && (b + y)[1..] == b[1..] + y;
      LessAppend(a[1..], b[1..], x, y);
      assert a == b <==> a[0] == b[0] && a[1..] == b[1..];
    }
  }

  /** Text of digits of one length compares like the numbers. */
  lemma {:induction false} DigitsInOrder(m: nat, n: nat, width: nat)
    requires m < Pow10(width) && n < Pow10(width)
    ensures Less(Digits(m, width), Digits(n, width)) <==> m < n
    ensures Digits(m, width) == Digits(n, width) ==> m == n
  {
    hide Less, Value;
    ValueOfDigits(m, width);
    ValueOfDigits(n, width);
    if width > 0 {
      DigitsInOrder(m / 10, n / 10, width - 1);
      LessAppend(Digits(m / 10, width - 1), Digits(n / 10, width - 1), [DigitOf(m % 10)], [DigitOf(n % 10)]);
      LessOne(DigitOf(m % 10), DigitOf(n % 10));
    } else {
      LessNone();
    }
  }

  lemma {:induction false} LessNone()
    ensures !Less("", "")
  {}

  lemma {:induction false} LessOne(a: char, b: char)
    ensures Less([a], [b]) <==> a < b
  {
    assert [a][1..] == "" && [b][1..] == "";
  }

  // ---- the text of a day ----

  function Iso(c: Civil): (s: string)
    ensures |s| == 10
  {
    Digits(c.year, 4) + ("-" + (Digits(c.month, 2) + ("-" + Digits(c.day, 2))))
  }

  /** The first ten characters of `toISOString`; years past 9999 are written with a sign and six digits. */
  function IsoText(c: Civil): string {
    if c.year <= 9999 then Iso(c) else ("+" + Digits(c.year, 6) + "-" + Digits(c.month, 2))[..10]
  }

  predicate Matches(s: string) {
    |s| == 10 && s[4] == '-' && s[7] == '-' && AllDigits(s[..4]) && AllDigits(s[5..7]) && AllDigits(s[8..])
  }

  /** The numbers written in the text, whether or not there is such a day. */
  function Written(s: string): Civil
    requires Matches(s)
  {
    Civil(Value(s[..4]), Value(s[5..7]), Value(s[8..]))
  }

  /** `Date.UTC` in days: months and days past their range carry over, years below 100 mean 19xx. */
  function MakeDay(c: Civil): int {
    var year: nat := (if c.year < 100 then 1900 + c.year else c.year) + (c.month + 11) / 12 - 1;
    DayFromYear(year) + DaysBefore(year, (c.month + 11) % 12 + 1) + c.day - 1
  }

  /** `toUtcMs` in days; `None` stands for NaN. */
  function ToUtc(s: string): Option<int> {
    if !Matches(s) then None else
    var n := MakeDay(Written(s));
    if n < FIRST_DAY || IsoText(FromDay(n)) != s then None else Some(n)
  }

  predicate IsIsoDate(s: string) {
    ToUtc(s).Some? && !Less(s, "2000-01-01")
  }

  function DateNumber(s: string): nat
    requires Matches(s)
  {
    Value(s[..4] + s[5..7] + s[8..])
  }

  function IsoFromDateNumber(value: nat): string
    requires |Decimal(value)| >= 8
  {
    Decimal(value)[..4] + "-" + Decimal(value)[4..6] + "-" + Decimal(value)[6..8]
  }

  function IsoOf(date: Date): string { Iso(CivilOf(date)) }

  lemma {:induction false} IsoParts(c: Civil)
    ensures Iso(c)[..4] == Digits(c.year, 4) && Iso(c)[5..7] == Digits(c.month, 2) && Iso(c)[8..] == Digits(c.day, 2)
    ensures Matches(Iso(c))
  {}

  lemma {:induction false} Pows()
    ensures Pow10(2) == 100 && Pow10(4) == 10_000 && Pow10(7) == 10_000_000 && Pow10(8) == 100_000_000
  {
    assert Pow10(4) == 10 * Pow10(3) && Pow10(2) == 10 * Pow10(1) == 100;
    assert Pow10(7) == 10 * Pow10(6) && Pow10(6) == 10 * Pow10(5) && Pow10(5) == 10 * Pow10(4);
  }

  /** Writing a day down and reading it back. */
  lemma {:induction false} WrittenIso(c: Civil)
    requires c.year <= 9999 && c.month < 100 && c.day < 100
    ensures Matches(Iso(c)) && Written(Iso(c)) == c
  {
    IsoParts(c);
    Pows();
    ValueOfDigits(c.year, 4);
    ValueOfDigits(c.month, 2);
    ValueOfDigits(c.day, 2);
  }

  lemma {:induction false} IsoWritten(s: string)
    requires Matches(s)
    ensures Iso(Written(s)) == s && Written(s).year <= 9999 && Written(s).month < 100 && Written(s).day < 100
  {
    Pows();
    DigitsOfValue(s[..4]);
    DigitsOfValue(s[5..7]);
    DigitsOfValue(s[8..]);
    assert s == s[..4] + ("-" + (s[5..7] + ("-" + s[8..])));
  }

  lemma {:induction false} MakeDayOfReal(c: Civil)
    requires c.Real() && 100 <= c.year
    ensures MakeDay(c) == ToDay(c)
  {
    assert (c.month + 11) / 12 == 1 && (c.month + 11) % 12 == c.month - 1;
  }

  lemma {:induction false} MakeDayOfEarly(c: Civil)
    requires c.year < 100 && c.month < 100
    ensures FIRST_DAY <= MakeDay(c) && FromDay(MakeDay(c)).year >= 100
  {
    hide MakeDay, DayFromYear, FromDay, ToDay, Civil.Real;
    var year := 1900 + c.year + (c.month + 11) / 12 - 1;
    NotBeforeYear(c, year);
    YearsGrow(0, 1000);
    YearsGrow(1000, year - 1);
    DayBefore(year);
    YearAtLeast(FromDay(MakeDay(c)), 1000);
  }

  lemma {:induction false} NotBeforeYear(c: Civil, year: nat)
    requires c.year < 100 && year == 1900 + c.year + (c.month + 11) / 12 - 1
    ensures MakeDay(c) >= DayFromYear(year) - 1
  {
    MonthsAdd(year);
  }

  lemma {:induction false} DayBefore(year: nat)
    requires year > 0
    ensures DayFromYear(year - 1) < DayFromYear(year)
  {
    YearsAdd(year - 1);
  }

  lemma {:induction false} YearAtLeast(c: Civil, year: nat)
    requires c.Real() && DayFromYear(year) <= ToDay(c)
    ensures year <= c.year
  {
    InYear(c);
    if c.year < year {
      YearsGrow(c.year, year);
    }
  }

  /** A text names a day exactly when it is the text of a real day of the years 100 to 9999. */
  lemma {:induction false} ToUtcIff(s: string)
    ensures ToUtc(s).Some? <==> Matches(s) && Written(s).Real() && 100 <= Written(s).year
    ensures ToUtc(s).Some? ==> ToUtc(s).value == ToDay(Written(s))
  {
    hide MakeDay, ToDay, Iso, Civil.Real, Written, Matches;
    if Matches(s) {
      var c := Written(s);
      IsoWritten(s);
      if c.Real() && 100 <= c.year {
        MakeDayOfReal(c);
        FromDayOfToDay(c);
      } else if ToUtc(s).Some? {
        var d := FromDay(MakeDay(c));
        SignedText(s, d);
        RealIsSmall(d);
        WrittenIso(d);
        if c.year < 100 {
          MakeDayOfEarly(c);
        }
      }
    }
  }

  lemma {:induction false} RealIsSmall(c: Civil)
    requires c.Real()
    ensures c.month < 100 && c.day < 100
  {}

  lemma {:induction false} SignedText(s: string, c: Civil)
    requires Matches(s) && IsoText(c) == s
    ensures c.year <= 9999
  {
    assert IsDigit(s[..4][0]);
  }

  /** `IsIsoDate` accepts exactly the texts of the days the program accepts as numbers. */
  lemma {:induction false} IsIsoDateIff(s: string)
    ensures IsIsoDate(s) <==> Matches(s) && IsDateNumber(Number(Written(s)))
    ensures IsIsoDate(s) ==> s == IsoOf(Number(Written(s)))
  {
    ToUtcIff(s);
    if Matches(s) {
      var c := Written(s);
      IsoWritten(s);
      if c.Real() {
        NumberRoundTrip(c);
        var millennium := Civil(2000, 1, 1);
        assert Iso(millennium) == "2000-01-01" by { MillenniumText(); }
        IsoInOrder(c, millennium);
      } else {
        NumberOfUnreal(c);
      }
    }
  }

  lemma {:induction false} MillenniumText()
    ensures Iso(Civil(2000, 1, 1)) == "2000-01-01"
  {
    hide Digits;
    DigitsLast(2000, 4);
    DigitsLast(200, 3);
    DigitsLast(20, 2);
    DigitsLast(2, 1);
    DigitsLast(1, 2);
    DigitsLast(0, 1);
    assert Digits(0, 0) == "";
    assert Digits(2000, 4) == "2000" && Digits(1, 2) == "01";
  }

  lemma {:induction false} NumberOfUnreal(c: Civil)
    requires c.year <= 9999 && c.month < 100 && c.day < 100
    ensures CivilOf(Number(c)) == c
  {
    assert Number(c) / 100 == c.year * 100 + c.month;
  }

  /** The order of the texts is the order of the days. */
  lemma {:induction false} IsoInOrder(a: Civil, b: Civil)
    requires a.year <= 9999 && a.month < 100 && a.day < 100 && b.year <= 9999 && b.month < 100 && b.day < 100
    ensures Less(Iso(a), Iso(b)) <==> a.Before(b)
  {
    hide Less, Digits, Pow10;
    var ya, yb := Digits(a.year, 4), Digits(b.year, 4);
    var ma, mb := Digits(a.month, 2), Digits(b.month, 2);
    var da, db := Digits(a.day, 2), Digits(b.day, 2);
    Pows();
    DigitsInOrder(a.year, b.year, 4);
    DigitsInOrder(a.month, b.month, 2);
    DigitsInOrder(a.day, b.day, 2);
    HyphensEqual();
    LessPair(ma, mb, da, db);
    LessPair(ya, yb, ma + ("-" + da), mb + ("-" + db));
  }

  lemma {:induction false} LessPair(a: string, b: string, x: string, y: string)
    requires |a| == |b|
    ensures Less(a + ("-" + x), b + ("-" + y)) <==> Less(a, b) || (a == b && Less(x, y))
  {
    hide Less;
    HyphensEqual();
    LessAppend("-", "-", x, y);
    LessAppend(a, b, "-" + x, "-" + y);
  }

  lemma {:induction false} HyphensEqual()
    ensures !Less("-", "-")
  {
    assert "-"[1..] == "";
  }

  /** Text and integer convert into each other without loss, in the same order. */
  lemma {:induction false} TextAndNumber(date: Date)
    requires IsDateNumber(date)
    ensures IsIsoDate(IsoOf(date)) && DateNumber(IsoOf(date)) == date
    ensures |Decimal(date)| >= 8 && IsoFromDateNumber(date) == IsoOf(date)
  {
    hide Digits, Value, Decimal, Pow10, Civil.Real;
    var c := CivilOf(date);
    CivilRoundTrip(date);
    RealIsSmall(c);
    WrittenIso(c);
    IsIsoDateIff(IsoOf(date));
    Pows();
    IsoParts(c);
    DigitsJoin(date);
    ValueOfDigits(date, 8);
    DecimalIsDigits(date, 8);
    JoinedParts(Digits(c.year, 4), Digits(c.month, 2), Digits(c.day, 2));
  }

  lemma {:induction false} JoinedParts(y: string, m: string, d: string)
    requires |y| == 4 && |m| == 2 && |d| == 2
    ensures (y + m + d)[..4] == y && (y + m + d)[4..6] == m && (y + m + d)[6..8] == d
  {}

  lemma {:induction false} DigitsJoin(date: Date)
    ensures Digits(date, 8) == Digits(date / 10_000, 4) + Digits(date / 100, 2) + Digits(date, 2)
    ensures Digits(date / 100, 2) == Digits(date / 100 % 100, 2) && Digits(date, 2) == Digits(date % 100, 2)
  {
    hide Digits;
    DigitsSplit(date, 6);
    DigitsSplit(date / 100, 4);
    LastDigits(date);
    LastDigits(date / 100);
    assert date / 100 / 100 == date / 10_000;
  }

  lemma {:induction false} DigitsLast(n: nat, width: nat)
    requires width > 0
    ensures Digits(n, width) == Digits(n / 10, width - 1) + [DigitOf(n % 10)]
  {}

  lemma {:induction false} TwoDigits(n: nat)
    ensures Digits(n, 2) == [DigitOf(n / 10 % 10)] + [DigitOf(n % 10)]
  {
    hide Digits;
    DigitsLast(n, 2);
    DigitsLast(n / 10, 1);
    assert |Digits(n / 10 / 10, 0)| == 0;
  }

  lemma {:induction false} DigitsSplit(n: nat, width: nat)
    ensures Digits(n, width + 2) == Digits(n / 100, width) + Digits(n, 2)
  {
    hide Digits, DigitOf;
    DigitsLast(n, width + 2);
    DigitsLast(n / 10, width + 1);
    TwoDigits(n);
    assert n / 10 / 10 == n / 100;
  }

  lemma {:induction false} LastDigits(n: nat)
    ensures Digits(n, 2) == Digits(n % 100, 2)
  {
    hide Digits, DigitOf;
    TwoDigits(n);
    TwoDigits(n % 100);
    LastTwo(n);
  }

  lemma {:induction false} LastTwo(n: nat)
    ensures n % 100 / 10 % 10 == n / 10 % 10 && n % 100 % 10 == n % 10
  {}

  lemma {:induction false} TextsInOrder(a: Date, b: Date)
    requires IsDateNumber(a) && IsDateNumber(b)
    ensures Less(IsoOf(a), IsoOf(b)) <==> a < b
  {
    IsoInOrder(CivilOf(a), CivilOf(b));
    NumbersInOrder(a, b);
  }

  /** `addDays` on text is `AddDays` on the numbers. */
  lemma {:induction false} AddDaysText(date: Date, days: int)
    requires IsDateNumber(date) && InRange(DayOf(date) + days)
    ensures ToUtc(IsoOf(date)) == Some(DayOf(date))
    ensures DayOf(date) + days >= FIRST_DAY && IsoText(FromDay(DayOf(date) + days)) == IsoOf(AddDays(date, days))
  {
    TextIsItsDay(date);
    DayIsItsText(DayOf(date) + days);
  }

  lemma {:induction false} TextIsItsDay(date: Date)
    requires IsDateNumber(date)
    ensures ToUtc(IsoOf(date)) == Some(DayOf(date))
  {
    hide Iso, Digits, ToUtc, Civil.Real, ToDay;
    RealIsSmall(CivilOf(date));
    WrittenIso(CivilOf(date));
    ToUtcIff(IsoOf(date));
  }

  lemma {:induction false} DayIsItsText(n: int)
    requires InRange(n)
    ensures n >= FIRST_DAY && IsoText(FromDay(n)) == IsoOf(DateOf(n))
  {
    hide Iso, Digits, Civil.Real, ToDay;
    DayRoundTrip(n);
    YearsGrow(0, 2000);
    NumberRoundTrip(FromDay(n));
  }
}
