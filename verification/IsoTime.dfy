/** The daily count filters `started_at >= ?` on text.  This module shows that byte order
    of Python's `isoformat()` of UTC datetimes is the order of the instants, although the
    fraction is written with either no digit or six. */
module IsoTime {
  import opened Risk
  import AccountKeys

  /** Byte-wise order, a proper prefix being smaller. */
  predicate TextLess(a: string, b: string) {
    if b == "" then false
    else if a == "" then true
    else a[0] < b[0] || (a[0] == b[0] && TextLess(a[1..], b[1..]))
  }

  function Digit(n: int): char {
    '0' + (n % 10) as char
  }

  function Pow10(w: nat): int {
    if w == 0 then 1 else 10 * Pow10(w - 1)
  }

  /** `n` in decimal, zero-padded to `w` digits. */
  function Digits(n: nat, w: nat): (s: string)
    ensures |s| == w
  {
    if w == 0 then "" else Digits(n / 10, w - 1) + [Digit(n)]
  }

  datatype DateTime = DateTime(year: nat, month: nat, day: nat, hour: nat, minute: nat, second: nat, micro: nat)

  predicate IsLeap(year: int) {
    year % 4 == 0 && (year % 100 != 0 || year % 400 == 0)
  }

  function DaysInMonth(year: int, month: int): int {
    if month == 2 then (if IsLeap(year) then 29 else 28)
    else if month == 4 || month == 6 || month == 9 || month == 11 then 30
    else 31
  }

  predicate Valid(t: DateTime) {
    && 1 <= t.year <= 9999 && 1 <= t.month <= 12 && 1 <= t.day <= DaysInMonth(t.year, t.month)
    && t.hour < 24 && t.minute < 60 && t.second < 60 && t.micro < 1_000_000
  }

  function Fraction(micro: nat): string {
    if micro == 0 then "" else "." + Digits(micro, 6)
  }

  function DateText(t: DateTime): string {
    Digits(t.year, 4) + ("-" + (Digits(t.month, 2) + ("-" + Digits(t.day, 2))))
  }

  /** `datetime.isoformat()` of a UTC datetime. */
  function IsoText(t: DateTime): string {
    Digits(t.year, 4) + ("-" + (Digits(t.month, 2) + ("-" + (Digits(t.day, 2) + ("T" + (Digits(t.hour, 2)
    + (":" + (Digits(t.minute, 2) + (":" + (Digits(t.second, 2) + (Fraction(t.micro) + "+00:00")))))))))))
  }

  function DaysBeforeMonth(year: int, month: nat): int {
    if month <= 1 then 0 else DaysBeforeMonth(year, month - 1) + DaysInMonth(year, month - 1)
  }

  function DaysBeforeYear(year: int): int {
    365 * (year - 1) + (year - 1) / 4 - (year - 1) / 100 + (year - 1) / 400
  }

  function DayNumber(t: DateTime): int {
    DaysBeforeYear(t.year) + DaysBeforeMonth(t.year, t.month) + t.day
  }

  /** Microseconds on the proleptic Gregorian time line. */
  function Instant(t: DateTime): int {
    DayNumber(t) * DAY + ((t.hour * 60 + t.minute) * 60 + t.second) * SECOND + t.micro
  }

  function Midnight(t: DateTime): DateTime {
    t.(hour := 0, minute := 0, second := 0, micro := 0)
  }

  // ---- the text and the calendar ----

  predicate AllDigits(s: string) {
    forall i | 0 <= i < |s| :: '0' <= s[i] <= '9'
  }

  lemma {:induction false} DigitsAreDecimal(n: nat, w: nat)
    requires n < Pow10(w)
    ensures AllDigits(Digits(n, w)) && AccountKeys.Decimal(Digits(n, w)) == n
  {
    if w > 0 {
      DigitsAreDecimal(n / 10, w - 1);
      assert Digits(n, w)[..w - 1] == Digits(n / 10, w - 1);
    }
  }

  /** `s` is the number `n` in `w` decimal digits. */
  predicate Numeral(s: string, w: nat, n: nat) {
    |s| == w && AllDigits(s) && AccountKeys.Decimal(s) == n
  }

  /** The text is `YYYY-MM-DDTHH:MM:SS+00:00`, with six decimals of the second before the offset
      when there are any. */
  lemma IsoTextFields(t: DateTime) returns (year: string, month: string, day: string, clock: seq<string>, decimals: string)
    requires Valid(t)
    ensures Numeral(year, 4, t.year) && Numeral(month, 2, t.month) && Numeral(day, 2, t.day) && |clock| == 3
    ensures Numeral(clock[0], 2, t.hour) && Numeral(clock[1], 2, t.minute) && Numeral(clock[2], 2, t.second)
    ensures Numeral(decimals, 6, t.micro)
    ensures IsoText(t) ==
      year + ("-" + (month + ("-" + (day + ("T" + (clock[0] + (":" + (clock[1] + (":" + (clock[2]
      + ((if t.micro == 0 then "" else "." + decimals) + "+00:00")))))))))))
  {
    hide Digits;
    assert Pow10(2) == 100 && Pow10(4) == 10_000 && Pow10(6) == 1_000_000;
    year, month, day, decimals := Digits(t.year, 4), Digits(t.month, 2), Digits(t.day, 2), Digits(t.micro, 6);
    clock := [Digits(t.hour, 2), Digits(t.minute, 2), Digits(t.second, 2)];
    DigitsAreDecimal(t.year, 4);
    DigitsAreDecimal(t.month, 2);
    DigitsAreDecimal(t.day, 2);
    DigitsAreDecimal(t.hour, 2);
    DigitsAreDecimal(t.minute, 2);
    DigitsAreDecimal(t.second, 2);
    DigitsAreDecimal(t.micro, 6);
  }

  predicate EndsMonth(t: DateTime) {
    if t.month == 2 then t.day == if t.year % 400 == 0 || (t.year % 4 == 0 && t.year % 100 != 0) then 29 else 28
    else if t.month in {4, 6, 9, 11} then t.day == 30
    else t.day == 31
  }

  /** The next date of the Gregorian calendar. */
  function NextDate(t: DateTime): DateTime {
    if !EndsMonth(t) then t.(day := t.day + 1)
    else if t.month < 12 then t.(month := t.month + 1, day := 1)
    else t.(year := t.year + 1, month := 1, day := 1)
  }

  /** Days are numbered along the calendar, from the first day of year 1. */
  lemma DayNumbersCount(t: DateTime)
    requires Valid(t)
    ensures DayNumber(NextDate(t)) == DayNumber(t) + 1
    ensures t.year == t.month == t.day == 1 ==> DayNumber(t) == 1
  {
    if EndsMonth(t) && t.month == 12 {
      YearEnds(t.year);
    }
  }

  // ---- text order, field by field ----

  lemma TextLessFacts(a: string, b: string)
    ensures !TextLess(a, a)
    ensures TextLess(a, b) ==> !TextLess(b, a)
    ensures TextLess(a, b) || TextLess(b, a) || a == b
  {
    if a != "" && b != "" {
      TextLessFacts(a[1..], b[1..]);
      TextLessFacts(a[1..], a[1..]);
      if a[0] == b[0] && a[1..] == b[1..] {
        assert a == [a[0]] + a[1..] && b == [b[0]] + b[1..];
      }
    } else if a != "" {
      TextLessFacts(a[1..], "");
    }
  }

  /** Texts with heads of equal length compare by head first. */
  lemma {:induction false} ConcatLess(p: string, q: string, a: string, b: string)
    requires |p| == |q|
    ensures TextLess(p + a, q + b) <==> TextLess(p, q) || (p == q && TextLess(a, b))
  {
    if p == "" {
      assert p + a == a && q + b == b;
    } else {
      assert (p + a)[1..] == p[1..] + a && (q + b)[1..] == q[1..] + b;
      ConcatLess(p[1..], q[1..], a, b);
      assert p == [p[0]] + p[1..] && q == [q[0]] + q[1..];
    }
  }

  /** Zero-padded numbers of one width compare as numbers. */
  lemma {:induction false} DigitsLess(n: nat, m: nat, w: nat)
    requires n < Pow10(w) && m < Pow10(w)
    ensures TextLess(Digits(n, w), Digits(m, w)) <==> n < m
    ensures Digits(n, w) == Digits(m, w) ==> n == m
  {
    if w > 0 {
      DigitsLess(n / 10, m / 10, w - 1);
      ConcatLess(Digits(n / 10, w - 1), Digits(m / 10, w - 1), [Digit(n)], [Digit(m)]);
      assert TextLess([Digit(n)], [Digit(m)]) <==> n % 10 < m % 10 by {
        assert [Digit(n)][1..] == "" && [Digit(m)][1..] == "";
      }
      if Digits(n, w) == Digits(m, w) {
        assert Digits(n, w)[..w - 1] == Digits(n / 10, w - 1) && Digits(m, w)[..w - 1] == Digits(m / 10, w - 1);
        assert Digits(n, w)[w - 1] == Digit(n) && Digits(m, w)[w - 1] == Digit(m);
      }
    }
  }

  /** One padded field followed by the rest of the text. */
  lemma FieldLess(n: nat, m: nat, w: nat, a: string, b: string)
    requires n < Pow10(w) && m < Pow10(w)
    ensures TextLess(Digits(n, w) + a, Digits(m, w) + b) <==> n < m || (n == m && TextLess(a, b))
  {
    ConcatLess(Digits(n, w), Digits(m, w), a, b);
    DigitsLess(n, m, w);
  }

  lemma SeparatorLess(c: char, a: string, b: string)
    ensures TextLess([c] + a, [c] + b) <==> TextLess(a, b)
  {
    TextLessFacts([c], [c]);
    ConcatLess([c], [c], a, b);
  }

  /** '+' sorts before '.', so no fraction sorts before any fraction. */
  lemma FractionLess(n: nat, m: nat)
    requires n < 1_000_000 && m < 1_000_000
    ensures TextLess(Fraction(n) + "+00:00", Fraction(m) + "+00:00") <==> n < m
  {
    TextLessFacts("+00:00", "+00:00");
    assert Pow10(6) == 1_000_000;
    if n > 0 && m > 0 {
      assert Fraction(n) + "+00:00" == "." + (Digits(n, 6) + "+00:00");
      assert Fraction(m) + "+00:00" == "." + (Digits(m, 6) + "+00:00");
      SeparatorLess('.', Digits(n, 6) + "+00:00", Digits(m, 6) + "+00:00");
      FieldLess(n, m, 6, "+00:00", "+00:00");
    } else {
      assert n > 0 ==> (Fraction(n) + "+00:00")[0] == '.';
      assert m > 0 ==> (Fraction(m) + "+00:00")[0] == '.';
      assert n == 0 ==> Fraction(n) + "+00:00" == "+00:00";
      assert m == 0 ==> Fraction(m) + "+00:00" == "+00:00";
    }
  }

  predicate DateEarlier(a: DateTime, b: DateTime) {
    a.year < b.year || (a.year == b.year && (a.month < b.month || (a.month == b.month && a.day < b.day)))
  }

  predicate ClockEarlier(a: DateTime, b: DateTime) {
    a.hour < b.hour || (a.hour == b.hour && (a.minute < b.minute || (a.minute == b.minute
    && (a.second < b.second || (a.second == b.second && a.micro < b.micro)))))
  }

  predicate SameDate(a: DateTime, b: DateTime) {
    a.year == b.year && a.month == b.month && a.day == b.day
  }

  predicate Earlier(a: DateTime, b: DateTime) {
    DateEarlier(a, b) || (SameDate(a, b) && ClockEarlier(a, b))
  }

  function ClockText(t: DateTime): string {
    Digits(t.hour, 2) + (":" + (Digits(t.minute, 2) + (":" + (Digits(t.second, 2) + (Fraction(t.micro) + "+00:00")))))
  }

  lemma ClockTextOrder(a: DateTime, b: DateTime)
    requires Valid(a) && Valid(b)
    ensures TextLess(ClockText(a), ClockText(b)) <==> ClockEarlier(a, b)
  {
    assert Pow10(2) == 100;
    var sa, sb := Fraction(a.micro) + "+00:00", Fraction(b.micro) + "+00:00";
    FractionLess(a.micro, b.micro);
    FieldLess(a.second, b.second, 2, sa, sb);
    var ma, mb := Digits(a.second, 2) + sa, Digits(b.second, 2) + sb;
    SeparatorLess(':', ma, mb);
    FieldLess(a.minute, b.minute, 2, ":" + ma, ":" + mb);
    var ha, hb := Digits(a.minute, 2) + (":" + ma), Digits(b.minute, 2) + (":" + mb);
    SeparatorLess(':', ha, hb);
    FieldLess(a.hour, b.hour, 2, ":" + ha, ":" + hb);
  }

  lemma IsoTextOrder(a: DateTime, b: DateTime)
    requires Valid(a) && Valid(b)
    ensures TextLess(IsoText(a), IsoText(b)) <==> Earlier(a, b)
  {
    assert Pow10(2) == 100 && Pow10(4) == 10_000;
    ClockTextOrder(a, b);
    var ca, cb := ClockText(a), ClockText(b);
    SeparatorLess('T', ca, cb);
    FieldLess(a.day, b.day, 2, "T" + ca, "T" + cb);
    var da, db := Digits(a.day, 2) + ("T" + ca), Digits(b.day, 2) + ("T" + cb);
    SeparatorLess('-', da, db);
    FieldLess(a.month, b.month, 2, "-" + da, "-" + db);
    var ma, mb := Digits(a.month, 2) + ("-" + da), Digits(b.month, 2) + ("-" + db);
    SeparatorLess('-', ma, mb);
    FieldLess(a.year, b.year, 4, "-" + ma, "-" + mb);
  }

  // ---- the order of instants ----

  lemma {:induction false} MonthEnds(year: int, m: nat, n: nat)
    requires 1 <= m <= n
    ensures m < n ==> DaysBeforeMonth(year, m) + DaysInMonth(year, m) <= DaysBeforeMonth(year, n)
    decreases n
  {
    if m < n {
      MonthEnds(year, m, n - 1);
    }
  }

  lemma MonthTotals(year: int)
    ensures DaysBeforeMonth(year, 12) == 306 + DaysInMonth(year, 2)
  {
    assert DaysBeforeMonth(year, 2) == 31;
    assert DaysBeforeMonth(year, 3) == 31 + DaysInMonth(year, 2);
    assert DaysBeforeMonth(year, 5) == DaysBeforeMonth(year, 3) + 61;
    assert DaysBeforeMonth(year, 7) == DaysBeforeMonth(year, 5) + 61;
    assert DaysBeforeMonth(year, 9) == DaysBeforeMonth(year, 7) + 62;
    assert DaysBeforeMonth(year, 11) == DaysBeforeMonth(year, 9) + 61;
  }

  lemma YearEnds(year: int)
    ensures DaysBeforeMonth(year, 12) + 31 == DaysBeforeYear(year + 1) - DaysBeforeYear(year)
  {
    MonthTotals(year);
    assert year / 4 - (year - 1) / 4 == if year % 4 == 0 then 1 else 0;
    assert year / 100 - (year - 1) / 100 == if year % 100 == 0 then 1 else 0;
    assert year / 400 - (year - 1) / 400 == if year % 400 == 0 then 1 else 0;
    assert year % 100 == 0 ==> year % 4 == 0;
    assert year % 400 == 0 ==> year % 100 == 0;
  }

  lemma YearsGrow(a: int, b: int)
    requires a <= b
    ensures DaysBeforeYear(a) <= DaysBeforeYear(b)
    decreases b - a
  {
    if a < b {
      YearEnds(b - 1);
      MonthTotals(b - 1);
      YearsGrow(a, b - 1);
    }
  }

  lemma DayOrder(a: DateTime, b: DateTime)
    requires Valid(a) && Valid(b)
    ensures DateEarlier(a, b) ==> DayNumber(a) < DayNumber(b)
  {
    if a.year < b.year {
      MonthEnds(a.year, a.month, 12);
      YearEnds(a.year);
      MonthEnds(b.year, 1, b.month);
      YearsGrow(a.year + 1, b.year);
    } else if a.year == b.year && a.month < b.month {
      MonthEnds(a.year, a.month, b.month);
    }
  }

  function ClockMicros(t: DateTime): int {
    ((t.hour * 60 + t.minute) * 60 + t.second) * SECOND + t.micro
  }

  lemma ClockOrder(a: DateTime, b: DateTime)
    requires Valid(a) && Valid(b)
    ensures 0 <= ClockMicros(a) < DAY
    ensures ClockEarlier(a, b) ==> ClockMicros(a) < ClockMicros(b)
  {
  }

  lemma InstantOrder(a: DateTime, b: DateTime)
    requires Valid(a) && Valid(b)
    ensures Earlier(a, b) ==> Instant(a) < Instant(b)
    ensures !Earlier(a, b) && !Earlier(b, a) ==> a == b
  {
    DayOrder(a, b);
    ClockOrder(a, b);
    ClockOrder(b, a);
    if DateEarlier(a, b) {
      assert (DayNumber(b) - DayNumber(a) - 1) * DAY >= 0;
    }
  }

  /** Text order is time order, and equal texts are equal instants. */
  lemma TextOrderIsTimeOrder(a: DateTime, b: DateTime)
    requires Valid(a) && Valid(b)
    ensures TextLess(IsoText(a), IsoText(b)) <==> Instant(a) < Instant(b)
    ensures IsoText(a) == IsoText(b) <==> Instant(a) == Instant(b)
  {
    IsoTextOrder(a, b);
    IsoTextOrder(b, a);
    InstantOrder(a, b);
    InstantOrder(b, a);
    TextLessFacts(IsoText(a), IsoText(b));
  }

  lemma DateTextInjective(a: DateTime, b: DateTime)
    requires Valid(a) && Valid(b) && DateText(a) == DateText(b)
    ensures SameDate(a, b)
  {
    assert Pow10(2) == 100 && Pow10(4) == 10_000;
    DigitsLess(a.year, b.year, 4);
    DigitsLess(a.month, b.month, 2);
    DigitsLess(a.day, b.day, 2);
    DateTextParts(a);
    DateTextParts(b);
  }

  lemma DateTextParts(t: DateTime)
    ensures var s := DateText(t);
      |s| == 10 && s[..4] == Digits(t.year, 4) && s[5..7] == Digits(t.month, 2) && s[8..] == Digits(t.day, 2)
  {
  }

  lemma DayOfInstant(t: DateTime)
    requires Valid(t)
    ensures TradingDayKey(Instant(t)) == DayNumber(t)
    ensures Instant(Midnight(t)) == DayNumber(t) * DAY
  {
    ClockOrder(t, t);
    assert Instant(t) == DayNumber(t) * DAY + ClockMicros(t);
  }

  /** The midnight that `start_of_trading_day` builds from the calendar fields is the
      arithmetic day start, and two datetimes write the same date exactly when their day
      keys agree. */
  lemma MidnightIsDayStart(a: DateTime, b: DateTime)
    requires Valid(a) && Valid(b)
    ensures Instant(Midnight(a)) == StartOfTradingDay(Instant(a))
    ensures DateText(a) == DateText(b) <==> TradingDayKey(Instant(a)) == TradingDayKey(Instant(b))
  {
    DayOfInstant(a);
    DayOfInstant(b);
    DayStartAndKeyAgree(Instant(a), Instant(b));
    if DateText(a) == DateText(b) {
      DateTextInjective(a, b);
    } else {
      DayOrder(a, b);
      DayOrder(b, a);
    }
  }
}
