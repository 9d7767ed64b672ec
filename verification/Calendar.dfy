/** UTC instants and how Go prints them. An instant is a number of nanoseconds since the
    start of year 0; dates follow one another by the proleptic Gregorian rule. */
module Calendar {
  import opened Base

  const DAY_SECONDS: int := 86_400
  const DAY: int := DAY_SECONDS * SECOND

  type Time = nat

  function UnixSecond(t: Time): nat { t / SECOND }

  datatype Date = Date(year: nat, month: nat, day: nat)

  predicate Leap(year: nat) {
    year % 4 == 0 && (year % 100 != 0 || year % 400 == 0)
  }

  function DaysIn(year: nat, month: nat): nat {
    if month == 2 then (if Leap(year) then 29 else 28)
    else if month in {4, 6, 9, 11} then 30
    else 31
  }

  predicate ValidDate(d: Date) {
    1 <= d.month <= 12 && 1 <= d.day <= DaysIn(d.year, d.month)
  }

  function NextDay(d: Date): Date {
    if d.day < DaysIn(d.year, d.month) then d.(day := d.day + 1)
    else if d.month < 12 then Date(d.year, d.month + 1, 1)
    else Date(d.year + 1, 1, 1)
  }

  // The date n days after the first day of year 0.
  function DateOf(n: nat): Date {
    if n == 0 then Date(0, 1, 1) else NextDay(DateOf(n - 1))
  }

  function DaysBeforeYear(year: nat): nat {
    if year == 0 then 0 else DaysBeforeYear(year - 1) + if Leap(year - 1) then 366 else 365
  }

  function DaysBeforeMonth(year: nat, month: nat): nat {
    if month <= 1 then 0 else DaysBeforeMonth(year, month - 1) + DaysIn(year, month - 1)
  }

  function DayNumber(d: Date): int {
    DaysBeforeYear(d.year) + DaysBeforeMonth(d.year, d.month) + d.day - 1
  }

  lemma YearLength(year: nat)
    ensures DaysBeforeMonth(year, 13) == if Leap(year) then 366 else 365
  {
    assert DaysBeforeMonth(year, 2) == 31;
    var february := 31 + DaysIn(year, 2);
    assert DaysBeforeMonth(year, 3) == february;
    assert DaysBeforeMonth(year, 4) == february + 31;
    assert DaysBeforeMonth(year, 5) == february + 61;
    assert DaysBeforeMonth(year, 6) == february + 92;
    assert DaysBeforeMonth(year, 7) == february + 122;
    assert DaysBeforeMonth(year, 8) == february + 153;
    assert DaysBeforeMonth(year, 9) == february + 184;
    assert DaysBeforeMonth(year, 10) == february + 214;
    assert DaysBeforeMonth(year, 11) == february + 245;
    assert DaysBeforeMonth(year, 12) == february + 275;
  }

  lemma NextDayNumber(d: Date)
    requires ValidDate(d)
    ensures ValidDate(NextDay(d)) && DayNumber(NextDay(d)) == DayNumber(d) + 1
  {
    YearLength(d.year);
  }

  /** Counting days and naming them are inverse: no two days share a date. */
  lemma {:induction false} DayNumberOfDate(n: nat)
    ensures ValidDate(DateOf(n)) && DayNumber(DateOf(n)) == n
  {
    if n != 0 {
      DayNumberOfDate(n - 1);
      NextDayNumber(DateOf(n - 1));
    }
  }

  function Ceil(n: nat, k: nat): nat
    requires k > 0
  {
    (n + k - 1) / k
  }

  lemma Multiple(k: int, d: int)
    requires k > 0
    ensures d >= 1 ==> k * d >= k
    ensures d <= -1 ==> k * d <= -k
  {
  }

  lemma Quotient(n: int, k: int, q: int, r: int)
    requires n == k * q + r && 0 <= r < k
    ensures n / k == q
  {
    var p := n / k;
    assert n == k * p + n % k;
    assert k * (p - q) == k * p - k * q;
    Multiple(k, p - q);
  }

  lemma CeilStep(n: nat, k: nat)
    requires k > 0
    ensures Ceil(n + 1, k) == Ceil(n, k) + if n % k == 0 then 1 else 0
  {
    var q, r := n / k, n % k;
    assert n == k * q + r;
    if r == 0 {
      Quotient(n + k, k, q + 1, 0);
      Quotient(n + k - 1, k, q, k - 1);
    } else {
      Quotient(n + k, k, q + 1, r);
      Quotient(n + k - 1, k, q + 1, r - 1);
    }
  }

  lemma NoYears()
    ensures Ceil(0, 4) == Ceil(0, 100) == Ceil(0, 400) == 0
  {
  }

  lemma {:induction false} YearsBefore(year: nat)
    ensures DaysBeforeYear(year) == 365 * year + Ceil(year, 4) - Ceil(year, 100) + Ceil(year, 400)
  {
    hide Ceil;
    if year == 0 {
      assert Ceil(0, 4) == Ceil(0, 100) == Ceil(0, 400) == 0 by { NoYears(); }
    } else {
      YearsBefore(year - 1);
      CeilStep(year - 1, 4);
      CeilStep(year - 1, 100);
      CeilStep(year - 1, 400);
    }
  }

  lemma CeilShift(n: nat)
    ensures Ceil(n + 400, 4) == Ceil(n, 4) + 100 && Ceil(n + 400, 100) == Ceil(n, 100) + 4 && Ceil(n + 400, 400) == Ceil(n, 400) + 1
  {
  }

  /** The Gregorian rule in closed form: a leap day every four years, but not in a century
      that 400 does not divide. Four centuries are 146097 days. */
  lemma GregorianYears(year: nat)
    ensures DaysBeforeYear(year) == 365 * year + (year + 3) / 4 - (year + 99) / 100 + (year + 399) / 400
    ensures DaysBeforeYear(year + 400) == DaysBeforeYear(year) + 146_097
  {
    hide DaysBeforeYear;
    YearsBefore(year);
    YearsBefore(year + 400);
    CeilShift(year);
  }

  lemma {:induction false} YearsGrow(a: nat, b: nat)
    requires a < b
    ensures DaysBeforeYear(a) + 365 + (if Leap(a) then 1 else 0) <= DaysBeforeYear(b)
  {
    if a < b - 1 {
      YearsGrow(a, b - 1);
    }
  }

  lemma {:induction false} MonthsGrow(year: nat, a: nat, b: nat)
    requires 1 <= a < b
    ensures DaysBeforeMonth(year, a) + DaysIn(year, a) <= DaysBeforeMonth(year, b)
  {
    if a < b - 1 {
      MonthsGrow(year, a, b - 1);
    }
  }

  lemma DayInYear(d: Date)
    requires ValidDate(d)
    ensures DaysBeforeMonth(d.year, d.month) + d.day <= DaysBeforeMonth(d.year, 13)
  {
    MonthsGrow(d.year, d.month, 13);
  }

  // Different dates have different numbers.
  lemma NumberInjective(d: Date, e: Date)
    requires ValidDate(d) && ValidDate(e) && DayNumber(d) == DayNumber(e)
    ensures d == e
  {
    YearLength(d.year);
    YearLength(e.year);
    DayInYear(d);
    DayInYear(e);
    if d.year < e.year {
      YearsGrow(d.year, e.year);
    } else if e.year < d.year {
      YearsGrow(e.year, d.year);
    } else if d.month < e.month {
      MonthsGrow(d.year, d.month, e.month);
    } else if e.month < d.month {
      MonthsGrow(d.year, e.month, d.month);
    }
  }

  /** And conversely: the date with a given number is the one that has it. */
  lemma DateOfDayNumber(d: Date)
    requires ValidDate(d)
    ensures DayNumber(d) >= 0 && DateOf(DayNumber(d)) == d
  {
    DayNumberOfDate(DayNumber(d));
    NumberInjective(d, DateOf(DayNumber(d)));
  }

  /** Dates are named as the calendar names them: the Unix epoch is day 719528. */
  lemma UnixEpoch()
    ensures DateOf(719_528) == Date(1970, 1, 1)
  {
    hide DaysBeforeYear, DateOf;
    GregorianYears(1970);
    assert DayNumber(Date(1970, 1, 1)) == 719_528;
    DateOfDayNumber(Date(1970, 1, 1));
  }

  lemma MonthLengths(year: nat)
    ensures DaysIn(year, 1) == DaysIn(year, 3) == DaysIn(year, 5) == DaysIn(year, 7) == DaysIn(year, 8) == DaysIn(year, 10) == DaysIn(year, 12) == 31
    ensures DaysIn(year, 4) == DaysIn(year, 6) == DaysIn(year, 9) == DaysIn(year, 11) == 30
    ensures DaysIn(year, 2) == if year % 400 == 0 || (year % 4 == 0 && year % 100 != 0) then 29 else 28
  {
  }

  // The day on which the month of day n began, as date_trunc('month', ...) gives it.
  function MonthStart(n: nat): int {
    n - DateOf(n).day + 1
  }

  lemma {:induction false} MonthStartMonotone(m: nat, n: nat)
    requires m <= n
    ensures MonthStart(m) <= MonthStart(n) <= n
  {
    DayNumberOfDate(n);
    if m < n {
      MonthStartMonotone(m, n - 1);
    }
  }

  /** It is the first day of that month. */
  lemma {:induction false} MonthStartIsFirst(n: nat)
    ensures 0 <= MonthStart(n) <= n
    ensures DateOf(MonthStart(n)) == Date(DateOf(n).year, DateOf(n).month, 1)
  {
    DayNumberOfDate(n);
    if DateOf(n).day != 1 {
      assert DateOf(n) == NextDay(DateOf(n - 1));
      MonthStartIsFirst(n - 1);
    }
  }

  lemma SameDate(m: nat, n: nat)
    requires DateOf(m) == DateOf(n)
    ensures m == n
  {
    DayNumberOfDate(m);
    DayNumberOfDate(n);
  }

  lemma StartOfStart(n: nat)
    ensures MonthStart(n) >= 0 && MonthStart(MonthStart(n)) == MonthStart(n)
  {
    MonthStartIsFirst(n);
  }

  /** A day lies in the month of a later day exactly when that month had begun. */
  lemma InMonthExactlyWhen(m: nat, n: nat)
    requires m <= n
    ensures MonthStart(n) <= m <==> DateOf(m).year == DateOf(n).year && DateOf(m).month == DateOf(n).month
  {
    MonthStartIsFirst(n);
    MonthStartIsFirst(m);
    StartOfStart(n);
    hide DateOf, MonthStart;
    if MonthStart(n) <= m {
      MonthStartMonotone(MonthStart(n), m);
      MonthStartMonotone(m, n);
    } else if DateOf(m).year == DateOf(n).year && DateOf(m).month == DateOf(n).month {
      SameDate(MonthStart(m), MonthStart(n));
    }
  }

  function Pow10(width: nat): nat {
    if width == 0 then 1 else 10 * Pow10(width - 1)
  }

  function Digit(n: nat): char
    requires n < 10
  {
    "0123456789"[n]
  }

  // Decimal digits, padded with zeros to the width; more digits when they are needed.
  function Pad(n: nat, width: nat): string
    decreases n + width
  {
    if n == 0 && width == 0 then ""
    else Pad(n / 10, if width == 0 then 0 else width - 1) + [Digit(n % 10)]
  }

  lemma {:induction false} PadLength(n: nat, width: nat)
    requires n < Pow10(width)
    ensures |Pad(n, width)| == width
  {
    if width != 0 {
      PadLength(n / 10, width - 1);
    }
  }

  lemma {:induction false} PadInjective(n: nat, m: nat, width: nat)
    requires n < Pow10(width) && m < Pow10(width)
    requires Pad(n, width) == Pad(m, width)
    ensures n == m
    decreases width
  {
    if width != 0 {
      SplitBack(Pad(n / 10, width - 1), [Digit(n % 10)], Pad(m / 10, width - 1), [Digit(m % 10)]);
      assert [Digit(n % 10)][0] == [Digit(m % 10)][0];
      PadInjective(n / 10, m / 10, width - 1);
    }
  }

  function DateAt(t: Time): Date {
    DateOf(UnixSecond(t) / DAY_SECONDS)
  }

  datatype Clock = Clock(hour: nat, minute: nat, second: nat)

  function ClockAt(t: Time): Clock {
    var s := UnixSecond(t) % DAY_SECONDS;
    Clock(s / 3600, s / 60 % 60, s % 60)
  }

  lemma ClockRange(t: Time)
    ensures ClockAt(t).hour < 24 && ClockAt(t).minute < 60 && ClockAt(t).second < 60
    ensures UnixSecond(t) % DAY_SECONDS == 3600 * ClockAt(t).hour + 60 * ClockAt(t).minute + ClockAt(t).second
  {
  }

  // Format("2006/01/02")
  function DayPath(t: Time): string {
    var d := DateAt(t);
    Pad(d.year, 4) + "/" + Pad(d.month, 2) + "/" + Pad(d.day, 2)
  }

  // Three padded numbers in a row.
  function Three(a: nat, width: nat, b: nat, c: nat): string {
    Pad(a, width) + (Pad(b, 2) + Pad(c, 2))
  }

  // Format("20060102")
  function DayStamp(t: Time): string {
    Three(DateAt(t).year, 4, DateAt(t).month, DateAt(t).day)
  }

  // Format("150405")
  function ClockStamp(t: Time): string {
    Three(ClockAt(t).hour, 2, ClockAt(t).minute, ClockAt(t).second)
  }

  // Format("20060102T150405Z")
  function Stamp(t: Time): string {
    DayStamp(t) + ("T" + (ClockStamp(t) + "Z"))
  }

  predicate FourDigitYear(t: Time) {
    DateAt(t).year < 10000
  }

  lemma Pow10Values()
    ensures Pow10(2) == 100 && Pow10(4) == 10000
  {
  }

  lemma ThreeLength(a: nat, width: nat, b: nat, c: nat)
    requires a < Pow10(width) && b < 100 && c < 100
    ensures |Three(a, width, b, c)| == width + 4
  {
    Pow10Values();
    PadLength(a, width);
    PadLength(b, 2);
    PadLength(c, 2);
  }

  lemma FirstField(a: nat, rest: string, d: nat, rest': string, width: nat)
    requires a < Pow10(width) && d < Pow10(width)
    requires Pad(a, width) + rest == Pad(d, width) + rest'
    ensures a == d && rest == rest'
  {
    PadLength(a, width);
    PadLength(d, width);
    SplitFront(Pad(a, width), rest, Pad(d, width), rest');
    PadInjective(a, d, width);
  }

  lemma ThreeInjective(a: nat, b: nat, c: nat, d: nat, e: nat, f: nat, width: nat)
    requires a < Pow10(width) && d < Pow10(width) && b < 100 && c < 100 && e < 100 && f < 100
    requires Three(a, width, b, c) == Three(d, width, e, f)
    ensures a == d && b == e && c == f
  {
    Pow10Values();
    FirstField(a, Pad(b, 2) + Pad(c, 2), d, Pad(e, 2) + Pad(f, 2), width);
    FirstField(b, Pad(c, 2), e, Pad(f, 2), 2);
    PadInjective(c, f, 2);
  }

  lemma DateRange(t: Time)
    ensures DateAt(t).month < 100 && DateAt(t).day < 100
  {
    DayNumberOfDate(UnixSecond(t) / DAY_SECONDS);
  }

  lemma Widths(t: Time)
    requires FourDigitYear(t)
    ensures |DayPath(t)| == 10 && |DayStamp(t)| == 8 && |ClockStamp(t)| == 6 && |Stamp(t)| == 16
  {
    DateRange(t);
    ClockRange(t);
    Pow10Values();
    ThreeLength(DateAt(t).year, 4, DateAt(t).month, DateAt(t).day);
    ThreeLength(ClockAt(t).hour, 2, ClockAt(t).minute, ClockAt(t).second);
    PadLength(DateAt(t).year, 4);
    PadLength(DateAt(t).month, 2);
    PadLength(DateAt(t).day, 2);
  }

  lemma SameDay(t: Time, u: Time)
    requires FourDigitYear(t) && FourDigitYear(u) && DayStamp(t) == DayStamp(u)
    ensures DateAt(t) == DateAt(u)
  {
    var d, e := DateAt(t), DateAt(u);
    DateRange(t);
    DateRange(u);
    Pow10Values();
    ThreeInjective(d.year, d.month, d.day, e.year, e.month, e.day, 4);
  }

  lemma SameClock(t: Time, u: Time)
    requires ClockStamp(t) == ClockStamp(u)
    ensures ClockAt(t) == ClockAt(u)
  {
    var a, b := ClockAt(t), ClockAt(u);
    ClockRange(t);
    ClockRange(u);
    Pow10Values();
    ThreeInjective(a.hour, a.minute, a.second, b.hour, b.minute, b.second, 2);
  }

  // ── Reading them back ──────────────────────────────────────────────────────────────

  // The value of a decimal text.
  function Number(text: string): nat {
    if text == "" then 0
    else
      var c := text[|text| - 1];
      10 * Number(text[..|text| - 1]) + if '0' <= c <= '9' then (c - '0') as nat else 0
  }

  lemma {:induction false} PadReads(n: nat, width: nat)
    ensures Number(Pad(n, width)) == n
    decreases n + width
  {
    if n != 0 || width != 0 {
      var rest := Pad(n / 10, if width == 0 then 0 else width - 1);
      PadReads(n / 10, if width == 0 then 0 else width - 1);
      assert Pad(n, width)[..|rest|] == rest;
    }
  }

  lemma ThreeReads(a: nat, width: nat, b: nat, c: nat)
    requires a < Pow10(width) && b < 100 && c < 100
    ensures var s := Three(a, width, b, c);
            |s| == width + 4 && Number(s[..width]) == a && Number(s[width..width + 2]) == b && Number(s[width + 2..]) == c
  {
    Pow10Values();
    PadLength(a, width);
    PadLength(b, 2);
    PadLength(c, 2);
    PadReads(a, width);
    PadReads(b, 2);
    PadReads(c, 2);
    var s := Three(a, width, b, c);
    assert s[..width] == Pad(a, width) && s[width..width + 2] == Pad(b, 2) && s[width + 2..] == Pad(c, 2);
  }

  lemma DayAt(t: Time)
    ensures DateAt(t) == DateOf(t / 86_400_000_000_000)
  {
    var second := t / SECOND;
    assert second / DAY_SECONDS == t / 86_400_000_000_000;
  }

  /** Year, month and day of a path stand at their places. */
  lemma DayPathReads(t: Time)
    requires FourDigitYear(t)
    ensures var s := DayPath(t);
            && |s| == 10 && s[4] == '/' && s[7] == '/'
            && Date(Number(s[..4]), Number(s[5..7]), Number(s[8..])) == DateOf(t / 86_400_000_000_000)
  {
    var d, s := DateAt(t), DayPath(t);
    DayAt(t);
    Widths(t);
    DateRange(t);
    Pow10Values();
    PadLength(d.year, 4);
    PadLength(d.month, 2);
    PadLength(d.day, 2);
    PadReads(d.year, 4);
    PadReads(d.month, 2);
    PadReads(d.day, 2);
    assert s[..4] == Pad(d.year, 4) && s[5..7] == Pad(d.month, 2) && s[8..] == Pad(d.day, 2);
  }

  /** Date and time of day of a stamp stand at their places. */
  lemma StampReads(t: Time)
    requires FourDigitYear(t)
    ensures var s := Stamp(t);
            && |s| == 16 && s[8] == 'T' && s[15] == 'Z'
            && Date(Number(s[..4]), Number(s[4..6]), Number(s[6..8])) == DateOf(t / 86_400_000_000_000)
            && Number(s[9..11]) * 3600 + Number(s[11..13]) * 60 + Number(s[13..15]) == t / 1_000_000_000 % 86_400
            && Number(s[11..13]) < 60 && Number(s[13..15]) < 60
  {
    hide Pad, Number;
    var d, c, s := DateAt(t), ClockAt(t), Stamp(t);
    DayAt(t);
    Widths(t);
    DateRange(t);
    ClockRange(t);
    Pow10Values();
    ThreeReads(d.year, 4, d.month, d.day);
    ThreeReads(c.hour, 2, c.minute, c.second);
    assert s[..8] == DayStamp(t) && s[9..15] == ClockStamp(t);
    assert s[..4] == s[..8][..4] && s[4..6] == s[..8][4..6] && s[6..8] == s[..8][6..];
    assert s[9..11] == s[9..15][..2] && s[11..13] == s[9..15][2..4] && s[13..15] == s[9..15][4..];
  }

  /** A printed time stamp determines its instant to the second. */
  lemma StampInjective(t: Time, u: Time)
    requires FourDigitYear(t) && FourDigitYear(u) && Stamp(t) == Stamp(u)
    ensures UnixSecond(t) == UnixSecond(u)
  {
    Widths(t);
    Widths(u);
    SplitFront(DayStamp(t), "T" + (ClockStamp(t) + "Z"), DayStamp(u), "T" + (ClockStamp(u) + "Z"));
    SplitFront("T", ClockStamp(t) + "Z", "T", ClockStamp(u) + "Z");
    SplitFront(ClockStamp(t), "Z", ClockStamp(u), "Z");
    SameDay(t, u);
    SameClock(t, u);
    DayNumberOfDate(UnixSecond(t) / DAY_SECONDS);
    DayNumberOfDate(UnixSecond(u) / DAY_SECONDS);
    ClockRange(t);
    ClockRange(u);
  }
}
