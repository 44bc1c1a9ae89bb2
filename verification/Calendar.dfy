/**
 The proleptic Gregorian calendar, UTC days and their YYYYMMDD names. An instant counts
 nanoseconds from the zero time (1 January of year 1, 00:00 UTC), so IsZero is `== 0`.
 Month lengths and leap years are those of RFC 3339, section 5.7 and Appendix C.
 */
module Calendar {
  import opened Archive

  type Instant = int

  const DAY: int := 86_400_000_000_000

  datatype Date = Date(year: int, month: int, day: int)

  predicate IsLeap(y: int) { y % 4 == 0 && (y % 100 != 0 || y % 400 == 0) }

  function DaysIn(y: int, m: int): int {
    if m == 2 then if IsLeap(y) then 29 else 28
    else if m == 4 || m == 6 || m == 9 || m == 11 then 30
    else 31
  }

  predicate Legal(d: Date) { 1 <= d.month <= 12 && 1 <= d.day <= DaysIn(d.year, d.month) }

  /** The next day by the calendar. */
  function Tomorrow(d: Date): Date {
    if d.day < DaysIn(d.year, d.month) then d.(day := d.day + 1)
    else if d.month < 12 then Date(d.year, d.month + 1, 1)
    else Date(d.year + 1, 1, 1)
  }

  /** Earlier in the calendar. */
  predicate Earlier(a: Date, b: Date) {
    a.year < b.year || (a.year == b.year && (a.month < b.month || (a.month == b.month && a.day < b.day)))
  }

  // ----- day numbers ---------------------------------------------------------------------------

  function DaysBeforeYear(y: int): int {
    365 * (y - 1) + (y - 1) / 4 - (y - 1) / 100 + (y - 1) / 400
  }

  function DaysBeforeMonth(y: int, m: int): int
    decreases m
  {
    if m <= 1 then 0 else DaysBeforeMonth(y, m - 1) + DaysIn(y, m - 1)
  }

  /** Days since 1 January of year 1. Days past the end of the month carry over, as in time.Date. */
  function DayNumber(d: Date): int {
    DaysBeforeYear(d.year) + DaysBeforeMonth(d.year, d.month) + d.day - 1
  }

  function YearOf(n: int): int {
    var k := n * 400 / 146097;
    if DaysBeforeYear(k + 2) <= n then k + 2 else k + 1
  }

  /** The month and day that lie `rest` days after the first of month `m`. */
  function MonthDay(y: int, m: int, rest: int): (int, int)
    requires 1 <= m <= 12
    decreases 12 - m
  {
    if m == 12 || rest < DaysIn(y, m) then (m, rest + 1) else MonthDay(y, m + 1, rest - DaysIn(y, m))
  }

  /** The civil date of a day number. */
  function Civil(n: int): Date {
    var y := YearOf(n);
    var (m, d) := MonthDay(y, 1, n - DaysBeforeYear(y));
    Date(y, m, d)
  }

  lemma YearLength(y: int)
    ensures DaysBeforeYear(y + 1) == DaysBeforeYear(y) + if IsLeap(y) then 366 else 365
  {
    Quotient(y, 4);
    Quotient(y, 100);
    Quotient(y, 400);
    assert y % 400 == 0 ==> y % 100 == 0 by { if y % 400 == 0 { assert y == 100 * (4 * (y / 400)); } }
    assert y % 100 == 0 ==> y % 4 == 0 by { if y % 100 == 0 { assert y == 4 * (25 * (y / 100)); } }
  }

  lemma Quotient(y: int, k: int)
    requires k == 4 || k == 100 || k == 400
    ensures y / k == (y - 1) / k + if y % k == 0 then 1 else 0
  {
  }

  lemma YearOfFits(n: int)
    ensures DaysBeforeYear(YearOf(n)) <= n < DaysBeforeYear(YearOf(n) + 1)
  {
    var k := n * 400 / 146097;
    YearLength(k + 2);
  }

  lemma MonthsInYear(y: int)
    ensures DaysBeforeMonth(y, 12) + 31 == if IsLeap(y) then 366 else 365
  {
    assert DaysBeforeMonth(y, 4) == 90 + if IsLeap(y) then 1 else 0;
    assert DaysBeforeMonth(y, 7) == DaysBeforeMonth(y, 4) + 91;
    assert DaysBeforeMonth(y, 10) == DaysBeforeMonth(y, 7) + 92;
    assert DaysBeforeMonth(y, 12) == DaysBeforeMonth(y, 10) + 61;
  }

  lemma {:induction false} MonthDayFits(y: int, m: int, rest: int)
    requires 1 <= m <= 12 && 0 <= rest && DaysBeforeMonth(y, m) + rest < DaysBeforeMonth(y, 12) + 31
    ensures var (m', d) := MonthDay(y, m, rest);
            && Legal(Date(y, m', d))
            && DaysBeforeMonth(y, m') + d - 1 == DaysBeforeMonth(y, m) + rest
    decreases 12 - m
  {
    if m < 12 && rest >= DaysIn(y, m) { MonthDayFits(y, m + 1, rest - DaysIn(y, m)); }
  }

  lemma CivilOfDay(n: int)
    ensures Legal(Civil(n)) && DayNumber(Civil(n)) == n
  {
    YearOfFits(n);
    YearLength(YearOf(n));
    MonthsInYear(YearOf(n));
    MonthDayFits(YearOf(n), 1, n - DaysBeforeYear(YearOf(n)));
  }

  lemma {:induction false} MonthsAscend(y: int, a: int, b: int)
    requires 1 <= a < b <= 12
    ensures DaysBeforeMonth(y, a) + DaysIn(y, a) <= DaysBeforeMonth(y, b)
    decreases b
  {
    if a < b - 1 { MonthsAscend(y, a, b - 1); }
  }

  lemma {:induction false} YearsAscend(a: int, b: int)
    requires a < b
    ensures DaysBeforeYear(a + 1) <= DaysBeforeYear(b)
    decreases b - a
  {
    if a + 1 < b {
      YearsAscend(a, b - 1);
      YearLength(b - 1);
    }
  }

  lemma WithinYear(d: Date)
    requires Legal(d)
    ensures DaysBeforeYear(d.year) <= DayNumber(d) < DaysBeforeYear(d.year + 1)
  {
    YearLength(d.year);
    MonthsInYear(d.year);
    if d.month < 12 { MonthsAscend(d.year, d.month, 12); }
    if 1 < d.month { MonthsAscend(d.year, 1, d.month); }
  }

  lemma EarlierCounts(a: Date, b: Date)
    requires Legal(a) && Legal(b) && Earlier(a, b)
    ensures DayNumber(a) < DayNumber(b)
  {
    if a.year < b.year {
      WithinYear(a);
      WithinYear(b);
      YearsAscend(a.year, b.year);
    } else if a.month < b.month {
      MonthsAscend(a.year, a.month, b.month);
    }
  }

  /** Day numbers order legal dates exactly as the calendar does, and no two share one. */
  lemma DayNumberOrders(a: Date, b: Date)
    requires Legal(a) && Legal(b)
    ensures Earlier(a, b) <==> DayNumber(a) < DayNumber(b)
    ensures a == b <==> DayNumber(a) == DayNumber(b)
  {
    if Earlier(a, b) {
      EarlierCounts(a, b);
    } else if Earlier(b, a) {
      EarlierCounts(b, a);
    }
  }

  lemma CivilInverse(d: Date)
    requires Legal(d)
    ensures Civil(DayNumber(d)) == d
  {
    CivilOfDay(DayNumber(d));
    DayNumberOrders(Civil(DayNumber(d)), d);
  }

  lemma TomorrowCounts(d: Date)
    requires Legal(d)
    ensures Legal(Tomorrow(d)) && DayNumber(Tomorrow(d)) == DayNumber(d) + 1
  {
    if d.month == 12 && d.day == 31 {
      YearLength(d.year);
      MonthsInYear(d.year);
      hide DaysBeforeYear;
    } else {
      hide DaysBeforeYear;
    }
  }

  /** Consecutive day numbers are consecutive calendar days. */
  lemma NextDayIsTomorrow(n: int)
    ensures Civil(n + 1) == Tomorrow(Civil(n))
  {
    hide *;
    CivilOfDay(n);
    TomorrowCounts(Civil(n));
    CivilInverse(Tomorrow(Civil(n)));
  }

  lemma MonthsTo(y: int)
    ensures var leap := if IsLeap(y) then 1 else 0;
            && DaysBeforeMonth(y, 1) == 0 && DaysBeforeMonth(y, 2) == 31 && DaysBeforeMonth(y, 3) == 59 + leap
            && DaysBeforeMonth(y, 4) == 90 + leap && DaysBeforeMonth(y, 5) == 120 + leap
            && DaysBeforeMonth(y, 6) == 151 + leap && DaysBeforeMonth(y, 7) == 181 + leap
            && DaysBeforeMonth(y, 8) == 212 + leap && DaysBeforeMonth(y, 9) == 243 + leap
            && DaysBeforeMonth(y, 10) == 273 + leap && DaysBeforeMonth(y, 11) == 304 + leap
            && DaysBeforeMonth(y, 12) == 334 + leap && DaysBeforeMonth(y + 1, 1) == 0
  {
    assert DaysBeforeMonth(y, 2) == 31;
    assert DaysBeforeMonth(y, 3) == 59 + if IsLeap(y) then 1 else 0;
    assert DaysBeforeMonth(y, 5) == DaysBeforeMonth(y, 3) + 61;
    assert DaysBeforeMonth(y, 7) == DaysBeforeMonth(y, 5) + 61;
    assert DaysBeforeMonth(y, 9) == DaysBeforeMonth(y, 7) + 62;
    assert DaysBeforeMonth(y, 11) == DaysBeforeMonth(y, 9) + 61;
  }

  /** The first of each month: so many days into the year, and one more after February of a leap year. */
  lemma MonthStarts(y: int, m: int)
    requires 1 <= m <= 12
    ensures var leap := if y % 400 == 0 || (y % 4 == 0 && y % 100 != 0) then 1 else 0;
            && DayNumber(Date(y, m, 1)) == DayNumber(Date(y, 1, 1)) +
                 [0, 31, 59, 90, 120, 151, 181, 212, 243, 273, 304, 334][m - 1] + (if m > 2 then leap else 0)
            && DayNumber(Date(y + 1, 1, 1)) == DayNumber(Date(y, 1, 1)) + 365 + leap
  {
    hide DaysBeforeYear, DaysBeforeMonth, IsLeap;
    LeapRule(y);
    YearLength(y);
    MonthsTo(y);
  }

  lemma LeapRule(y: int)
    ensures IsLeap(y) <==> y % 400 == 0 || (y % 4 == 0 && y % 100 != 0)
  {
    if y % 400 == 0 { assert y == 4 * (100 * (y / 400)); }
  }

  // ----- instants ------------------------------------------------------------------------------

  function DayOf(t: Instant): int { t / DAY }

  /** time.Date(y, m, d, 0, ..., UTC) with the clock added back. */
  function FromDate(d: Date, clock: int): Instant { DayNumber(d) * DAY + clock }

  function TruncateUTC(t: Instant): Instant { FromDate(Civil(DayOf(t)), 0) }

  /** t.AddDate(0, 0, n). */
  function AddDays(t: Instant, n: int): Instant {
    var d := Civil(DayOf(t));
    FromDate(d.(day := d.day + n), t % DAY)
  }

  lemma DayProduct(a: int, n: int)
    ensures (a + n) * DAY == a * DAY + n * DAY
    ensures (a * DAY) / DAY == a && (a * DAY) % DAY == 0
  {
  }

  lemma TruncateIsMidnight(t: Instant)
    ensures TruncateUTC(t) == DayOf(t) * DAY && TruncateUTC(t) <= t < TruncateUTC(t) + DAY
    ensures DayOf(TruncateUTC(t)) == DayOf(t)
  {
    CivilOfDay(DayOf(t));
    DayProduct(DayOf(t), 0);
  }

  /** Truncation is monotone and idempotent. */
  lemma TruncateMonotone(a: Instant, b: Instant)
    requires a <= b
    ensures TruncateUTC(a) <= TruncateUTC(b) && TruncateUTC(TruncateUTC(a)) == TruncateUTC(a)
  {
    TruncateIsMidnight(a);
    TruncateIsMidnight(b);
    TruncateIsMidnight(TruncateUTC(a));
    hide TruncateUTC;
  }

  lemma AddDaysMoves(t: Instant, n: int)
    ensures AddDays(t, n) == t + n * DAY
  {
    CivilOfDay(DayOf(t));
    DayProduct(DayOf(t), n);
    assert t == DayOf(t) * DAY + t % DAY;
  }

  /** The zero time is 1 January of year 1, midnight, and the Unix epoch lies 719162 days of 24 hours later. */
  lemma ZeroTime()
    ensures FromDate(Date(1, 1, 1), 0) == 0 && Civil(DayOf(0)) == Date(1, 1, 1)
    ensures FromDate(Date(1970, 1, 1), 0) == 719162 * (24 * 60 * 60 * 1_000_000_000)
    ensures Civil(719162) == Date(1970, 1, 1)
  {
    CivilInverse(Date(1, 1, 1));
    CivilInverse(Date(1970, 1, 1));
    assert DayNumber(Date(1, 1, 1)) == 0 && DayNumber(Date(1970, 1, 1)) == 719162;
    hide Civil, DayNumber;
  }

  // ----- names ---------------------------------------------------------------------------------

  function Digit(n: int): char
    requires 0 <= n < 10
  {
    (n + '0' as int) as char
  }

  function Digits(n: nat): string {
    if n < 10 then [Digit(n)] else Digits(n / 10) + [Digit(n % 10)]
  }

  function Zeros(s: string, width: nat): string
    decreases width - |s|
  {
    if |s| < width then Zeros("0" + s, width) else s
  }

  /** An integer in decimal, padded with zeros; a minus sign comes before the padding. */
  function Padded(x: int, width: nat): string {
    if x < 0 then "-" + Zeros(Digits(-x), width) else Zeros(Digits(x), width)
  }

  /** d.Format("20060102"). */
  function Name(d: Date): string { Padded(d.year, 4) + Padded(d.month, 2) + Padded(d.day, 2) }

  predicate IsDigit(c: char) { '0' <= c <= '9' }

  ghost predicate AllDigits(s: string) { forall i :: 0 <= i < |s| ==> IsDigit(s[i]) }

  /** The number a string of digits stands for. */
  ghost function Value(s: string): int {
    if s == "" then 0 else 10 * Value(s[..|s| - 1]) + (s[|s| - 1] as int - '0' as int)
  }

  lemma {:induction false} DigitsValue(n: nat)
    ensures AllDigits(Digits(n)) && Digits(n) != "" && Value(Digits(n)) == n
  {
    if n < 10 {
      assert Digits(n)[..0] == "";
    } else {
      DigitsValue(n / 10);
      assert Digits(n)[..|Digits(n)| - 1] == Digits(n / 10);
    }
  }

  lemma {:induction false} DigitsLength(n: nat, width: nat, bound: nat)
    requires n < bound && width > 0 && bound == Pow10(width)
    ensures |Digits(n)| <= width
    decreases width
  {
    if n >= 10 {
      assert bound == 10 * Pow10(width - 1);
      assert n / 10 < Pow10(width - 1);
      assert width > 1;
      DigitsLength(n / 10, width - 1, Pow10(width - 1));
    }
  }

  function Pow10(k: nat): nat { if k == 0 then 1 else 10 * Pow10(k - 1) }

  lemma {:induction false} ZeroValue(s: string)
    ensures Value("0" + s) == Value(s)
  {
    if s == "" {
      assert "0" + s == "0" && "0"[..0] == "";
    } else {
      assert ("0" + s)[..|s|] == "0" + s[..|s| - 1];
      ZeroValue(s[..|s| - 1]);
    }
  }

  lemma {:induction false} ZerosValue(s: string, width: nat)
    requires AllDigits(s)
    ensures AllDigits(Zeros(s, width)) && Value(Zeros(s, width)) == Value(s)
    ensures |Zeros(s, width)| == if |s| < width then width else |s|
    decreases width - |s|
  {
    if |s| < width {
      ZeroValue(s);
      ZerosValue("0" + s, width);
    }
  }

  lemma PaddedValue(x: nat, width: nat)
    ensures AllDigits(Padded(x, width)) && Value(Padded(x, width)) == x
    ensures width > 0 && x < Pow10(width) ==> |Padded(x, width)| == width
    ensures Padded(x, width) != ""
  {
    DigitsValue(x);
    ZerosValue(Digits(x), width);
    if width > 0 && x < Pow10(width) { DigitsLength(x, width, Pow10(width)); }
  }

  lemma Powers()
    ensures Pow10(2) == 100 && Pow10(4) == 10000
  {
    assert Pow10(1) == 10 && Pow10(3) == 1000;
  }

  lemma MonthDayNames(d: Date)
    requires Legal(d)
    ensures |Padded(d.month, 2)| == 2 && |Padded(d.day, 2)| == 2
    ensures Value(Padded(d.month, 2)) == d.month && Value(Padded(d.day, 2)) == d.day
    ensures AllDigits(Padded(d.month, 2)) && AllDigits(Padded(d.day, 2))
  {
    Powers();
    PaddedValue(d.month, 2);
    PaddedValue(d.day, 2);
  }

  lemma YearNameInjective(a: int, b: int)
    requires Padded(a, 4) == Padded(b, 4)
    ensures a == b
  {
    PaddedValue(if a < 0 then -a else a, 4);
    PaddedValue(if b < 0 then -b else b, 4);
    assert a < 0 ==> Padded(a, 4)[0] == '-' && Padded(a, 4)[1..] == Padded(-a, 4);
    assert b < 0 ==> Padded(b, 4)[0] == '-' && Padded(b, 4)[1..] == Padded(-b, 4);
    assert a >= 0 ==> IsDigit(Padded(a, 4)[0]);
    assert b >= 0 ==> IsDigit(Padded(b, 4)[0]);
  }

  /** No two legal dates, of any year, share a name. */
  lemma NameInjective(a: Date, b: Date)
    requires Legal(a) && Legal(b) && Name(a) == Name(b)
    ensures a == b
  {
    MonthDayNames(a);
    MonthDayNames(b);
    var s, n := Name(a), |Name(a)|;
    assert Padded(a.day, 2) == s[n - 2..] == Padded(b.day, 2);
    assert Padded(a.month, 2) == s[n - 4..n - 2] == Padded(b.month, 2);
    assert Padded(a.year, 4) == s[..n - 4] == Padded(b.year, 4);
    YearNameInjective(a.year, b.year);
  }

  lemma {:induction false} ValueConcat(s: string, t: string)
    ensures Value(s + t) == Value(s) * Pow10(|t|) + Value(t)
    decreases t
  {
    if t == "" {
      assert s + t == s;
    } else {
      var u := t[..|t| - 1];
      assert (s + t)[..|s + t| - 1] == s + u;
      ValueConcat(s, u);
      assert Value(s) * Pow10(|t|) == 10 * (Value(s) * Pow10(|u|));
    }
  }

  lemma {:induction false} ValueBound(s: string)
    requires AllDigits(s)
    ensures 0 <= Value(s) < Pow10(|s|)
  {
    if s != "" { ValueBound(s[..|s| - 1]); }
  }

  /** Strings of digits of one length are ordered as the numbers they stand for. */
  lemma {:induction false} LessIsSmaller(s: string, t: string)
    requires AllDigits(s) && AllDigits(t) && |s| == |t|
    ensures Less(s, t) <==> Value(s) < Value(t)
  {
    if s != "" {
      LessIsSmaller(s[1..], t[1..]);
      LeadingDigit(s);
      LeadingDigit(t);
      LeadingDigitDecides(s[0] as int, t[0] as int, Pow10(|s| - 1), Value(s[1..]), Value(t[1..]));
      hide Value, Pow10;
    }
  }

  lemma LeadingDigit(s: string)
    requires AllDigits(s) && s != ""
    ensures Value(s) == (s[0] as int - '0' as int) * Pow10(|s| - 1) + Value(s[1..])
    ensures 0 <= Value(s[1..]) < Pow10(|s| - 1)
  {
    assert s == [s[0]] + s[1..];
    ValueConcat([s[0]], s[1..]);
    ValueBound(s[1..]);
    assert [s[0]][..0] == "";
    assert Value([s[0]]) == s[0] as int - '0' as int;
  }

  lemma LeadingDigitDecides(x: int, y: int, p: int, u: int, v: int)
    requires 0 <= u < p && 0 <= v < p
    ensures (x - '0' as int) * p + u < (y - '0' as int) * p + v <==> x < y || (x == y && u < v)
  {
    var a, b := x - '0' as int, y - '0' as int;
    if a < b {
      assert (a + 1) * p <= b * p;
    } else if b < a {
      assert (b + 1) * p <= a * p;
    }
  }

  lemma NameValue(d: Date)
    requires Legal(d) && 0 <= d.year <= 9999
    ensures AllDigits(Name(d)) && |Name(d)| == 8
    ensures Value(Name(d)) == 10000 * d.year + 100 * d.month + d.day
  {
    Powers();
    MonthDayNames(d);
    PaddedValue(d.year, 4);
    ValueConcat(Padded(d.year, 4), Padded(d.month, 2));
    ValueConcat(Padded(d.year, 4) + Padded(d.month, 2), Padded(d.day, 2));
  }

  /** Through year 9999 names are eight digits and sort as the days they name. */
  lemma NamesSortAsDays(a: Date, b: Date)
    requires Legal(a) && Legal(b) && 0 <= a.year <= 9999 && 0 <= b.year <= 9999
    ensures |Name(a)| == 8 && AllDigits(Name(a))
    ensures Less(Name(a), Name(b)) <==> DayNumber(a) < DayNumber(b)
  {
    NameValue(a);
    NameValue(b);
    LessIsSmaller(Name(a), Name(b));
    DayNumberOrders(a, b);
  }
}
