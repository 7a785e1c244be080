/**
 The month helpers of the revenue report (backend/src/application/services/platform-admin-service.ts)
 over the Gregorian calendar. A month is numbered year * 12 + (0..11); an instant is a number of
 milliseconds from the start of year 0.
 */
module Months {
  import opened Base
  import opened Text

  type Month = nat

  const DAY := 86_400_000

  predicate Leap(year: nat) {
    year % 4 == 0 && (year % 100 != 0 || year % 400 == 0)
  }

  function DaysIn(m: Month): (days: nat)
    ensures 28 <= days <= 31
  {
    var k := m % 12;
    if k == 1 then (if Leap(m / 12) then 29 else 28) else if k == 3 || k == 5 || k == 8 || k == 10 then 30 else 31
  }

  function StartDay(m: Month): nat {
    if m == 0 then 0 else StartDay(m - 1) + DaysIn(m - 1)
  }

  function Start(m: Month): nat {
    StartDay(m) * DAY
  }

  /** The last millisecond of the month. */
  function End(m: Month): nat {
    Start(m) + DaysIn(m) * DAY - 1
  }

  lemma StartOfNext(m: Month)
    ensures Start(m + 1) == End(m) + 1
  {
  }

  /** The month an instant falls in, searching from month `from`. */
  function FindMonth(t: nat, from: Month): (m: Month)
    requires Start(from) <= t
    ensures Start(m) <= t <= End(m)
    decreases t - Start(from)
  {
    if t <= End(from) then from else StartOfNext(from); FindMonth(t, from + 1)
  }

  /** `getUTCFullYear` and `getUTCMonth` of an instant. */
  function MonthContaining(t: nat): (m: Month)
    ensures Start(m) <= t <= End(m)
  {
    FindMonth(t, 0)
  }

  lemma {:induction false} MonthsInOrder(a: Month, b: Month)
    requires a < b
    ensures End(a) < Start(b)
    decreases b
  {
    StartOfNext(b - 1);
    if a < b - 1 {
      MonthsInOrder(a, b - 1);
    }
  }

  /** An instant lies in one month only. */
  lemma OneMonth(t: nat, a: Month, b: Month)
    requires Start(a) <= t <= End(a) && Start(b) <= t <= End(b)
    ensures a == b
  {
    if a < b {
      MonthsInOrder(a, b);
    } else if b < a {
      MonthsInOrder(b, a);
    }
  }

  // ---------------------------------------------------------------- the helpers

  /** `Date.UTC` reads the years 0 to 99 as 1900 to 1999. */
  function UtcYear(year: nat): nat {
    if year <= 99 then 1900 + year else year
  }

  /** The month of `Date.UTC(year, m, 1)`, where `m` may run over either end of the year. */
  function UtcMonth(year: nat, m: int): Month
    requires m >= -12
  {
    UtcYear(year) * 12 + m
  }

  predicate ValidMonth(s: string) {
    && |s| == 7 && s[4] == '-'
    && IsDigit(s[0]) && IsDigit(s[1]) && IsDigit(s[2]) && IsDigit(s[3])
    && ((s[5] == '0' && '1' <= s[6] <= '9') || (s[5] == '1' && '0' <= s[6] <= '2'))
  }

  function YearOf(s: string): int
    requires ValidMonth(s)
  {
    NumberOf(s[..4])
  }

  lemma YearIsNatural(s: string)
    requires ValidMonth(s)
    ensures 0 <= YearOf(s) <= 9999
    ensures YearOf(s) == 1000 * Digit(s[0]) + 100 * Digit(s[1]) + 10 * Digit(s[2]) + Digit(s[3])
  {
    var y := s[..4];
    assert y[..3] == s[..3] && s[..3][..2] == s[..2] && s[..2][..1] == s[..1] && s[..1][..0] == [];
    assert NumberOf(s[..1]) == Digit(s[0]);
    assert NumberOf(s[..2]) == 10 * NumberOf(s[..1]) + Digit(s[1]);
    assert NumberOf(s[..3]) == 10 * NumberOf(s[..2]) + Digit(s[2]);
  }

  function Digit(c: char): int {
    c as int - '0' as int
  }

  /** `toMonthStart`: the month asked for, or the current one when that is missing or malformed. */
  function ToMonthStart(month: Option<string>, now: nat): (m: Month)
    ensures m >= 1200
  {
    if month.Some? && ValidMonth(month.value) then
      var s := month.value;
      YearIsNatural(s);
      UtcMonth(YearOf(s), Digit(s[5]) * 10 + Digit(s[6]) - 1)
    else
      var m := MonthContaining(now);
      UtcMonth(m / 12, m % 12)
  }

  /** `toMonthEnd`: the last millisecond of the month. */
  function ToMonthEnd(start: Month): nat {
    End(UtcMonth(start / 12, start % 12))
  }

  function ShiftMonth(start: Month, diff: int): Month
    requires diff >= -12
  {
    UtcMonth(start / 12, start % 12 + diff)
  }

  /** `toMonthKey`: such as 2025-03. */
  function ToMonthKey(t: nat): string {
    KeyOf(MonthContaining(t))
  }

  function KeyOf(m: Month): string {
    Decimal(m / 12) + "-" + PadStart(Decimal(m % 12 + 1), 2)
  }

  /** Shifting a selected month crosses year ends like counting months does. */
  lemma ShiftCounts(start: Month, diff: int)
    requires start >= 1200 && diff >= -12
    ensures ShiftMonth(start, diff) == start + diff
  {
  }

  /**
   The month-end instant of a month falls in that month exactly when its year is not among the first
   hundred, which `Date.UTC` takes for years of the twentieth century.
   */
  lemma MonthEndStaysInMonth(start: Month)
    ensures MonthContaining(ToMonthEnd(start)) == start <==> start >= 1200
  {
    var m := UtcMonth(start / 12, start % 12);
    OneMonth(End(m), m, MonthContaining(End(m)));
  }

  // ---------------------------------------------------------------- keys

  /** A text is determined by its parts around the last separator. */
  lemma LastSeparator(x: string, y: string, v: string, w: string, c: char)
    requires x + [c] + y == v + [c] + w && c !in y && c !in w
    ensures x == v && y == w
  {
    var s := x + [c] + y;
    assert s[|x|] == c && s[|v|] == c;
    assert s[..|x|] == x && s[|x| + 1..] == y;
    assert (v + [c] + w)[..|v|] == v && (v + [c] + w)[|v| + 1..] == w;
  }

  lemma PaddedDigits(n: nat, width: nat)
    ensures NumberOf(PadStart(Decimal(n), width)) == n
    ensures forall c | !IsDigit(c) :: c !in PadStart(Decimal(n), width) && c !in Decimal(n)
  {
    DecimalDenotes(n);
    PaddingDenotes(Decimal(n), width);
  }

  /** Different months have different keys. */
  lemma KeysDiffer(a: Month, b: Month)
    requires KeyOf(a) == KeyOf(b)
    ensures a == b
  {
    PaddedDigits(a % 12 + 1, 2);
    PaddedDigits(b % 12 + 1, 2);
    LastSeparator(Decimal(a / 12), PadStart(Decimal(a % 12 + 1), 2), Decimal(b / 12), PadStart(Decimal(b % 12 + 1), 2), '-');
    DecimalDenotes(a / 12);
    DecimalDenotes(b / 12);
  }

  lemma KeyHasNoColon(m: Month)
    ensures ':' !in KeyOf(m)
  {
    PaddedDigits(m / 12, 1);
    PaddedDigits(m % 12 + 1, 2);
  }

  lemma MonthEndKey(start: Month)
    ensures ToMonthKey(ToMonthEnd(start)) == KeyOf(start) <==> start >= 1200
  {
    var m := MonthContaining(ToMonthEnd(start));
    MonthEndStaysInMonth(start);
    if KeyOf(m) == KeyOf(start) {
      KeysDiffer(m, start);
    }
  }

  /** The key of a shifted month is that of the counted month, outside the first hundred years. */
  lemma ShiftedKey(selected: Month, diff: int)
    requires selected >= 1200 && diff >= -12
    ensures ToMonthKey(ToMonthEnd(ShiftMonth(selected, diff))) == KeyOf(selected + diff) <==> selected + diff >= 1200
  {
    ShiftCounts(selected, diff);
    MonthEndKey(selected + diff);
  }

  /** January of the year 100 can be asked for ... */
  lemma January100(now: nat)
    ensures ToMonthStart(Some("0100-01"), now) == 1200
  {
    YearIsNatural("0100-01");
  }

  /** ... and the end of the month before it is taken for that of December 1999. */
  lemma December99()
    ensures ToMonthKey(ToMonthEnd(1199)) == KeyOf(1999 * 12 + 11)
  {
    var m := UtcMonth(99, 11);
    OneMonth(End(m), m, MonthContaining(End(m)));
  }

  // ---------------------------------------------------------------- the month asked for

  lemma TwoDigits(s: string)
    requires |s| == 2 && IsDigit(s[0]) && IsDigit(s[1])
    ensures NumberOf(s) == 10 * Digit(s[0]) + Digit(s[1])
  {
    assert s[..1] == [s[0]] && [s[0]][..0] == [];
    assert NumberOf(s[..1]) == Digit(s[0]);
  }

  /** A well-formed request selects its month, in a year of the twentieth century when it names one of the first hundred. */
  lemma RequestSelectsMonth(s: string, now: nat)
    requires ValidMonth(s)
    ensures var year, month := NumberOf(s[..4]), NumberOf(s[5..]);
      && 0 <= year <= 9999 && 1 <= month <= 12
      && ToMonthStart(Some(s), now) == (if year < 100 then 1900 + year else year) * 12 + month - 1
  {
    YearIsNatural(s);
    TwoDigits(s[5..]);
  }

  /** Without a well-formed request the month of the present instant is selected, from the year 100 on. */
  lemma DefaultIsCurrentMonth(month: Option<string>, now: nat)
    requires month.Some? ==> !ValidMonth(month.value)
    ensures ToMonthStart(month, now) == MonthContaining(now) <==> MonthContaining(now) >= 1200
  {
  }

  /** The key of the selected month is the text asked for, exactly from the year 1000 on: keys do not pad years. */
  lemma KeyEchoesRequest(s: string, now: nat)
    requires ValidMonth(s)
    ensures KeyOf(ToMonthStart(Some(s), now)) == s <==> NumberOf(s[..4]) >= 1000
  {
    var year, month := NumberOf(s[..4]), NumberOf(s[5..]);
    RequestSelectsMonth(s, now);
    var m := ToMonthStart(Some(s), now);
    assert m % 12 + 1 == month;
    PaddedMonth(s[5..]);
    if year >= 1000 {
      assert m / 12 == year;
      YearDigits(s);
      assert s == s[..4] + "-" + s[5..];
    } else if KeyOf(m) == s {
      assert s == s[..4] + "-" + s[5..];
      LastSeparator(Decimal(m / 12), PadStart(Decimal(month), 2), s[..4], s[5..], '-');
      DecimalDenotes(m / 12);
      ThreeDigits(year);
    }
  }

  lemma PaddedMonth(t: string)
    requires |t| == 2 && IsDigit(t[0]) && IsDigit(t[1]) && 1 <= NumberOf(t) <= 12
    ensures PadStart(Decimal(NumberOf(t)), 2) == t && '-' !in t
  {
    TwoDigits(t);
    if t[0] == '0' {
      DigitOf(t[1]);
      assert Decimal(NumberOf(t)) == [t[1]];
      assert "0" + [t[1]] == t;
    } else {
      DecimalOfNumber(t);
    }
  }

  lemma YearDigits(s: string)
    requires ValidMonth(s) && NumberOf(s[..4]) >= 1000
    ensures Decimal(NumberOf(s[..4])) == s[..4]
  {
    YearIsNatural(s);
    DecimalOfNumber(s[..4]);
  }

  lemma ThreeDigits(y: nat)
    requires y < 1000
    ensures |Decimal(y)| <= 3
  {
    if y >= 100 {
      assert Decimal(y / 10) == Decimal(y / 100) + [DIGITS[y / 10 % 10]];
    }
  }

  // ---------------------------------------------------------------- the calendar

  lemma MonthOfYear(year: nat, k: nat)
    requires k < 12
    ensures (12 * year + k) / 12 == year && (12 * year + k) % 12 == k
  {
  }

  /** The months of a year, leap years aside. */
  lemma MonthHasDays(year: nat, k: nat)
    requires k < 12 && k != 1
    ensures DaysIn(12 * year + k) == if k in {3, 5, 8, 10} then 30 else 31
  {
    MonthOfYear(year, k);
  }

  lemma FebruaryHasDays(year: nat)
    ensures DaysIn(12 * year + 1) == if year % 400 == 0 || (year % 4 == 0 && year % 100 != 0) then 29 else 28
  {
    MonthOfYear(year, 1);
    LeapMeans(year);
  }

  lemma LeapMeans(year: nat)
    ensures Leap(year) <==> year % 400 == 0 || (year % 4 == 0 && year % 100 != 0)
  {
    if year % 400 == 0 {
      var q := year / 400;
      assert year == 4 * (100 * q);
    }
  }

  lemma FirstHalf(year: nat)
    ensures StartDay(12 * year + 6) == StartDay(12 * year) + DaysIn(12 * year + 1) + 153
  {
    HalfYear(12 * year);
    MonthHasDays(year, 0);
    MonthHasDays(year, 2);
    MonthHasDays(year, 3);
    MonthHasDays(year, 4);
    MonthHasDays(year, 5);
  }

  lemma SecondHalf(year: nat)
    ensures StartDay(12 * year + 12) == StartDay(12 * year + 6) + 184
  {
    HalfYear(12 * year + 6);
    MonthHasDays(year, 6);
    MonthHasDays(year, 7);
    MonthHasDays(year, 8);
    MonthHasDays(year, 9);
    MonthHasDays(year, 10);
    MonthHasDays(year, 11);
  }

  /** A year is 365 days long, and 366 when it is divisible by four but not by a hundred, or by four hundred. */
  lemma YearHasDays(year: nat)
    ensures StartDay(12 * (year + 1)) - StartDay(12 * year)
         == if year % 400 == 0 || (year % 4 == 0 && year % 100 != 0) then 366 else 365
  {
    FirstHalf(year);
    SecondHalf(year);
    FebruaryHasDays(year);
    assert 12 * (year + 1) == 12 * year + 12;
  }

  lemma HalfYear(m: Month)
    ensures StartDay(m + 6) == StartDay(m) + DaysIn(m) + DaysIn(m + 1) + DaysIn(m + 2) + DaysIn(m + 3) + DaysIn(m + 4) + DaysIn(m + 5)
  {
    assert StartDay(m + 2) == StartDay(m) + DaysIn(m) + DaysIn(m + 1);
    assert StartDay(m + 4) == StartDay(m + 2) + DaysIn(m + 2) + DaysIn(m + 3);
  }
}
