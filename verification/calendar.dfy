/** Calendar arithmetic of the rollups: day numbers, the week number that SQLite's `%W` prints, and
    the strings that stand for dates and instants (internal/mock/mock.go). All times are UTC. */
module Calendar {
  import opened Text

  // --- The proleptic Gregorian calendar ---

  predicate Leap(y: int) {
    y % 4 == 0 && (y % 100 != 0 || y % 400 == 0)
  }

  function YearLength(y: int): nat {
    if Leap(y) then 366 else 365
  }

  function MonthLength(y: int, m: nat): nat {
    if m == 2 then (if Leap(y) then 29 else 28)
    else if m == 4 || m == 6 || m == 9 || m == 11 then 30
    else 31
  }

  function DaysBeforeMonth(y: int, m: nat): nat
    requires 1 <= m <= 13
  {
    if m == 1 then 0 else DaysBeforeMonth(y, m - 1) + MonthLength(y, m - 1)
  }

  /** Days from 1 January of year 1 to 1 January of year `y`. */
  function DaysBeforeYear(y: nat): nat
    requires y >= 1
  {
    365 * (y - 1) + (y - 1) / 4 - (y - 1) / 100 + (y - 1) / 400
  }

  datatype Date = Date(year: nat, month: nat, day: nat)

  /** Years the four-digit layouts can print. */
  predicate ValidDate(d: Date) {
    1 <= d.year <= 9999 && 1 <= d.month <= 12 && 1 <= d.day <= MonthLength(d.year, d.month)
  }

  function YearDay(d: Date): nat
    requires 1 <= d.month <= 12
  {
    DaysBeforeMonth(d.year, d.month) + d.day
  }

  function DayNumber(d: Date): int
    requires d.year >= 1 && 1 <= d.month <= 12
  {
    DaysBeforeYear(d.year) + YearDay(d) - 1
  }

  /** Sunday is 0; the first day of year 1 was a Monday. */
  function Weekday(dayNumber: int): nat {
    (dayNumber + 1) % 7
  }

  lemma QuarterStep(y: nat)
    requires y >= 1
    ensures y / 4 == (y - 1) / 4 + (if y % 4 == 0 then 1 else 0)
  {
  }

  lemma Hundreds(y: nat, q: nat, r: nat)
    requires y == 100 * q + r && r < 100
    ensures y / 100 == q && y % 100 == r
  {
  }

  lemma CenturyStep(y: nat)
    requires y >= 1
    ensures y / 100 == (y - 1) / 100 + (if y % 100 == 0 then 1 else 0)
  {
    var q, r := (y - 1) / 100, (y - 1) % 100;
    if r == 99 {
      Hundreds(y, q + 1, 0);
    } else {
      Hundreds(y, q, r + 1);
    }
  }

  lemma FourHundreds(y: nat, q: nat, r: nat)
    requires y == 400 * q + r && r < 400
    ensures y / 400 == q && y % 400 == r
  {
  }

  lemma GregorianStep(y: nat)
    requires y >= 1
    ensures y / 400 == (y - 1) / 400 + (if y % 400 == 0 then 1 else 0)
  {
    var q, r := (y - 1) / 400, (y - 1) % 400;
    if r == 399 {
      FourHundreds(y, q + 1, 0);
    } else {
      FourHundreds(y, q, r + 1);
    }
  }

  lemma CenturiesAreQuarters(y: nat)
    ensures y % 100 == 0 ==> y % 4 == 0
    ensures y % 400 == 0 ==> y % 100 == 0
  {
    if y % 100 == 0 {
      assert y == 4 * (25 * (y / 100));
    }
    if y % 400 == 0 {
      Hundreds(y, 4 * (y / 400), 0);
    }
  }

  lemma YearStep(y: nat)
    requires y >= 1
    ensures DaysBeforeYear(y + 1) == DaysBeforeYear(y) + YearLength(y)
  {
    QuarterStep(y);
    CenturyStep(y);
    GregorianStep(y);
    CenturiesAreQuarters(y);
  }

  lemma {:induction false} YearsGrow(y: nat, z: nat)
    requires 1 <= y < z
    ensures DaysBeforeYear(y) + YearLength(y) <= DaysBeforeYear(z)
    decreases z
  {
    YearStep(z - 1);
    if y < z - 1 {
      YearsGrow(y, z - 1);
    }
  }

  lemma MonthsFillYear(y: int)
    ensures DaysBeforeMonth(y, 13) == YearLength(y)
  {
    assert DaysBeforeMonth(y, 2) == 31;
    assert DaysBeforeMonth(y, 3) == 59 + (if Leap(y) then 1 else 0);
    assert DaysBeforeMonth(y, 5) == DaysBeforeMonth(y, 3) + 61;
    assert DaysBeforeMonth(y, 7) == DaysBeforeMonth(y, 5) + 61;
    assert DaysBeforeMonth(y, 9) == DaysBeforeMonth(y, 7) + 62;
    assert DaysBeforeMonth(y, 11) == DaysBeforeMonth(y, 9) + 61;
    assert DaysBeforeMonth(y, 13) == DaysBeforeMonth(y, 11) + 61;
  }

  lemma {:induction false} MonthsGrow(y: int, m: nat, n: nat)
    requires 1 <= m < n <= 13
    ensures DaysBeforeMonth(y, m) + MonthLength(y, m) <= DaysBeforeMonth(y, n)
    decreases n
  {
    if m < n - 1 {
      MonthsGrow(y, m, n - 1);
    }
  }

  lemma YearDayBounds(d: Date)
    requires ValidDate(d)
    ensures 1 <= YearDay(d) <= YearLength(d.year)
  {
    if d.month < 12 {
      MonthsGrow(d.year, d.month, 13);
    }
    MonthsFillYear(d.year);
  }

  /** Field by field. */
  predicate DateBefore(a: Date, b: Date) {
    a.year < b.year || (a.year == b.year && (a.month < b.month || (a.month == b.month && a.day < b.day)))
  }

  /** Comparing dates field by field is comparing day numbers. */
  lemma DateOrder(a: Date, b: Date)
    requires ValidDate(a) && ValidDate(b)
    ensures DateBefore(a, b) <==> DayNumber(a) < DayNumber(b)
  {
    if DateBefore(a, b) {
      DateOrderOneWay(a, b);
    } else if a != b {
      DateOrderOneWay(b, a);
    }
  }

  lemma DateOrderOneWay(a: Date, b: Date)
    requires ValidDate(a) && ValidDate(b) && DateBefore(a, b)
    ensures DayNumber(a) < DayNumber(b)
  {
    YearDayBounds(a);
    YearDayBounds(b);
    if a.year < b.year {
      YearsGrow(a.year, b.year);
    } else if a.month < b.month {
      MonthsGrow(a.year, a.month, b.month);
    }
  }

  /** The Gregorian calendar, from the first day of year 1 on: what follows each day, month and
      year. */
  lemma CalendarRules(y: nat, m: nat, d: nat)
    requires y >= 1 && 1 <= m <= 12
    ensures DayNumber(Date(1, 1, 1)) == 0
    ensures var february := if y % 400 == 0 || (y % 4 == 0 && y % 100 != 0) then 29 else 28;
            MonthLength(y, m) == [31, february, 31, 30, 31, 30, 31, 31, 30, 31, 30, 31][m - 1]
    ensures DayNumber(Date(y, m, d + 1)) == DayNumber(Date(y, m, d)) + 1
    ensures m < 12 ==> DayNumber(Date(y, m + 1, 1)) == DayNumber(Date(y, m, MonthLength(y, m))) + 1
    ensures DayNumber(Date(y + 1, 1, 1)) == DayNumber(Date(y, 12, 31)) + 1
  {
    YearStep(y);
    MonthsFillYear(y);
    assert DaysBeforeMonth(y, 13) == DaysBeforeMonth(y, 12) + 31;
    assert DaysBeforeMonth(1, 1) == 0;
    CenturiesAreQuarters(y);
  }

  /** The days of the week follow each other, and these dates fell on them: 1 January 1970 was a
      Thursday, 1 January 2000 a Saturday, 24 May 2026 a Sunday. */
  lemma DaysOfTheWeek(n: int)
    ensures Weekday(n + 1) == (Weekday(n) + 1) % 7
    ensures Weekday(DayNumber(Date(1970, 1, 1))) == 4
    ensures Weekday(DayNumber(Date(2000, 1, 1))) == 6
    ensures Weekday(DayNumber(Date(2026, 5, 24))) == 0
  {
    AddModSeven(n + 1, 1);
    assert DaysBeforeMonth(2026, 3) == 59;
    assert DaysBeforeMonth(2026, 5) == DaysBeforeMonth(2026, 3) + 61;
  }

  // --- Week numbers ---

  /** The number `sqliteWeekKey` computes, from the 1-based day of the year. */
  function WeekNumber(year: nat, yearDay: nat): nat
    requires year >= 1
  {
    var jan1Weekday := Weekday(DaysBeforeYear(year));
    var firstMonday := 1 + (8 - jan1Weekday) % 7;
    var dist := yearDay - firstMonday;
    if dist < 0 then 0 else dist / 7 + 1
  }

  /** A whole number of weeks before or after 3 January 2000, a Monday. */
  predicate OnMonday(dayNumber: int) {
    (dayNumber - DayNumber(Date(2000, 1, 3))) % 7 == 0
  }

  predicate IsMonday(year: nat, yearDay: nat)
    requires year >= 1
  {
    OnMonday(DaysBeforeYear(year) + yearDay - 1)
  }

  lemma SevenApart(n: int, monday: int)
    requires (monday + 1) % 7 == 1
    ensures (n + 1) % 7 == 1 <==> (n - monday) % 7 == 0
  {
    assert monday + 1 == 7 * ((monday + 1) / 7) + 1;
    assert n + 1 == (n - monday + 1) + 7 * ((monday + 1) / 7);
    AddModSeven(n - monday, 1);
    assert (n + 1) % 7 == (n - monday + 1) % 7;
  }

  /** Mondays, told by the weekday, are the days whole weeks from that Monday. */
  lemma MondaysWeeksApart(n: int)
    ensures Weekday(n) == 1 <==> OnMonday(n)
    ensures OnMonday(n) <==> (n - DayNumber(Date(2000, 1, 3))) % 7 == 0
  {
    assert DayNumber(Date(2000, 1, 3)) == 730121;
    SevenApart(n, 730121);
  }

  /** The Mondays from 1 January through a day of the year: the meaning of `%W`. */
  function MondaysThrough(year: nat, yearDay: nat): nat
    requires year >= 1
  {
    if yearDay == 0 then 0
    else MondaysThrough(year, yearDay - 1) + (if IsMonday(year, yearDay) then 1 else 0)
  }

  lemma AddModSeven(a: int, b: int)
    ensures (a % 7 + b) % 7 == (a + b) % 7
  {
    assert a == 7 * (a / 7) + a % 7;
    assert (a + b) == 7 * (a / 7) + (a % 7 + b);
  }

  lemma DivideBySeven(d: int)
    requires d > 0
    ensures d / 7 == (d - 1) / 7 + (if d % 7 == 0 then 1 else 0)
  {
  }

  lemma WeekStep(year: nat, yearDay: nat)
    requires year >= 1 && yearDay >= 1
    ensures WeekNumber(year, yearDay) == WeekNumber(year, yearDay - 1) + (if IsMonday(year, yearDay) then 1 else 0)
  {
    var n := DaysBeforeYear(year);
    WeekdayLater(n, yearDay);
    MondaysWeeksApart(n + yearDay - 1);
    NextWeek(year, Weekday(n), yearDay);
  }

  lemma WeekdayLater(n: int, yearDay: nat)
    requires yearDay >= 1
    ensures Weekday(n + yearDay - 1) == (Weekday(n) + yearDay - 1) % 7
  {
    AddModSeven(n + 1, yearDay - 1);
  }

  /** The computed number grows on the days that are Mondays by the weekday of 1 January. */
  lemma NextWeek(year: nat, w: nat, yearDay: nat)
    requires year >= 1 && yearDay >= 1 && w == Weekday(DaysBeforeYear(year))
    ensures WeekNumber(year, yearDay)
            == WeekNumber(year, yearDay - 1) + (if (w + yearDay - 1) % 7 == 1 then 1 else 0)
  {
    var dist := yearDay - (1 + (8 - w) % 7);
    MondayByDistance(w, yearDay);
    if dist > 0 {
      DivideBySeven(dist);
    }
  }

  /** Mondays are the days a whole number of weeks from the first Monday. */
  lemma MondayByDistance(w: nat, yearDay: nat)
    requires w < 7 && yearDay >= 1
    ensures (w + yearDay - 1) % 7 == 1 <==> (yearDay - (1 + (8 - w) % 7)) % 7 == 0
  {
    var first := 1 + (8 - w) % 7;
    assert w + first == 2 || w + first == 9;
    var dist := yearDay - first;
    assert w + yearDay - 1 == dist + (w + first - 1);
    assert (w + yearDay - 1) % 7 == (dist + 1) % 7;
  }

  lemma {:induction false} WeekCounts(year: nat, yearDay: nat)
    requires year >= 1
    ensures WeekNumber(year, yearDay) == MondaysThrough(year, yearDay)
    decreases yearDay
  {
    if yearDay > 0 {
      WeekCounts(year, yearDay - 1);
      WeekStep(year, yearDay);
    }
  }

  lemma {:induction false} MondaysCounted(year: nat, yearDay: nat, first: int, mondays: set<int>)
    requires year >= 1 && first == DaysBeforeYear(year)
    requires mondays == set n: int | first <= n < first + yearDay && OnMonday(n)
    ensures |mondays| == MondaysThrough(year, yearDay)
    decreases yearDay
  {
    if yearDay == 0 {
      assert mondays == {};
    } else {
      var before := set n: int | first <= n < first + yearDay - 1 && OnMonday(n);
      MondaysCounted(year, yearDay - 1, first, before);
      if IsMonday(year, yearDay) {
        assert mondays == before + {first + yearDay - 1};
      } else {
        assert mondays == before;
      }
    }
  }

  /** The closed form counts the Mondays of the year up to the date. */
  lemma WeekIsMondayCount(d: Date)
    requires d.year >= 1 && 1 <= d.month <= 12
    ensures WeekNumber(d.year, YearDay(d))
            == |set n: int | DayNumber(Date(d.year, 1, 1)) <= n <= DayNumber(d) && OnMonday(n)|
  {
    var first := DaysBeforeYear(d.year);
    assert DayNumber(Date(d.year, 1, 1)) == first by {
      assert DaysBeforeMonth(d.year, 1) == 0;
    }
    var mondays := set n: int | first <= n < first + YearDay(d) && OnMonday(n);
    WeekCounts(d.year, YearDay(d));
    MondaysCounted(d.year, YearDay(d), first, mondays);
    assert mondays == set n: int | DayNumber(Date(d.year, 1, 1)) <= n <= DayNumber(d) && OnMonday(n);
  }

  lemma {:induction false} MondaysBetween(year: nat, a: nat, b: nat)
    requires year >= 1 && a <= b
    ensures MondaysThrough(year, a) <= MondaysThrough(year, b)
    ensures MondaysThrough(year, a) == MondaysThrough(year, b) <==> forall k: nat :: a < k <= b ==> !IsMonday(year, k)
    decreases b
  {
    if a < b {
      MondaysBetween(year, a, b - 1);
    }
  }

  lemma WeekBound(year: nat, yearDay: nat)
    requires year >= 1 && yearDay <= 366
    ensures WeekNumber(year, yearDay) <= 53
  {
  }

  // --- Keys ---

  /** What `itoa` prints. */
  function Itoa(n: int): string {
    if n < 0 then "" else Decimal(n)
  }

  lemma LastDigit(k: nat)
    requires k > 0
    ensures Decimal(k) == (if k / 10 > 0 then Decimal(k / 10) else "") + [Digit(k % 10)]
  {
  }

  lemma MoveDigit(head: string, digit: string, tail: string)
    ensures head + (digit + tail) == (head + digit) + tail
  {
  }

  method ItoaLoop(n: int) returns (s: string)
    ensures s == Itoa(n)
  {
    if n == 0 {
      return "0";
    }
    s := "";
    var k := n;
    while k > 0
      invariant k >= 0 || k == n
      invariant n > 0 ==> Decimal(n) == (if k > 0 then Decimal(k) else "") + s
      invariant n < 0 ==> s == ""
      decreases k
    {
      LastDigit(k);
      MoveDigit(if k / 10 > 0 then Decimal(k / 10) else "", [Digit(k % 10)], s);
      s := [Digit(k % 10)] + s;
      k := k / 10;
    }
  }

  function WeekKey(year: nat, week: nat): string {
    Itoa(year) + "-W" + (if |Itoa(week)| == 1 then "0" + Itoa(week) else Itoa(week))
  }

  function DateWeekKey(d: Date): string
    requires ValidDate(d)
  {
    WeekKey(d.year, WeekNumber(d.year, YearDay(d)))
  }

  /** The arithmetic of `sqliteWeekKey`. */
  method ComputeWeek(year: nat, yearDay: int) returns (week: int)
    requires year >= 1 && yearDay >= 0
    ensures week == WeekNumber(year, yearDay)
  {
    var jan1Weekday := Weekday(DaysBeforeYear(year));
    var firstMondayDOY := 1 + (8 - jan1Weekday) % 7;
    var dist := yearDay - firstMondayDOY;
    if dist < 0 {
      week := 0;
    } else {
      week := dist / 7 + 1;
    }
  }

  method SqliteWeekKey(d: Date) returns (key: string)
    requires ValidDate(d)
    ensures key == DateWeekKey(d)
    ensures var mondays := set n: int | DayNumber(Date(d.year, 1, 1)) <= n <= DayNumber(d) && OnMonday(n);
            |mondays| <= 53 && key == Decimal(d.year) + ("-W" + Pad(|mondays|, 2))
  {
    WeekKeyShape(d);
    WeekIsMondayCount(d);
    var week := ComputeWeek(d.year, YearDay(d));
    var w := ItoaLoop(week);
    if |w| == 1 {
      w := "0" + w;
    }
    var y := ItoaLoop(d.year);
    key := y + "-W" + w;
  }

  lemma WeekText(week: nat)
    requires week <= 99
    ensures (if |Itoa(week)| == 1 then "0" + Itoa(week) else Itoa(week)) == Pad(week, 2)
  {
    assert Pow10(0) == 1 && Pow10(1) == 10 && Pow10(2) == 100;
    if week < 10 {
      assert Decimal(week) == [Digit(week)];
      assert Pad(0, 0) == "" && Pad(0, 1) == [Digit(0)];
      assert Pad(week, 2) == Pad(0, 1) + [Digit(week)];
    } else {
      DecimalIsPad(week, 2);
    }
  }

  lemma WeekKeyShape(d: Date)
    requires ValidDate(d)
    ensures WeekNumber(d.year, YearDay(d)) <= 53
    ensures DateWeekKey(d) == Decimal(d.year) + ("-W" + Pad(WeekNumber(d.year, YearDay(d)), 2))
  {
    YearDayBounds(d);
    WeekBound(d.year, YearDay(d));
    WeekText(WeekNumber(d.year, YearDay(d)));
  }

  /** A Sunday still belongs to the week before; the Monday after it begins the next. */
  lemma KnownWeeks()
    ensures DateWeekKey(Date(2026, 5, 24)) == "2026-W20" && DateWeekKey(Date(2026, 5, 25)) == "2026-W21"
  {
    WeeksOfMay();
    WeekKeyShape(Date(2026, 5, 24));
    WeekKeyShape(Date(2026, 5, 25));
    WeekTexts();
    assert "2026" + ("-W" + "20") == "2026-W20" && "2026" + ("-W" + "21") == "2026-W21";
  }

  lemma WeeksOfMay()
    ensures YearDay(Date(2026, 5, 24)) == 144 && YearDay(Date(2026, 5, 25)) == 145
    ensures WeekNumber(2026, 144) == 20 && WeekNumber(2026, 145) == 21
  {
    assert DaysBeforeMonth(2026, 3) == 59;
    assert DaysBeforeMonth(2026, 5) == DaysBeforeMonth(2026, 3) + 61;
  }

  lemma WeekTexts()
    ensures Decimal(2026) == "2026" && Pad(20, 2) == "20" && Pad(21, 2) == "21"
  {
    assert Decimal(20) == "20" && Decimal(202) == "202";
    assert Pad(2, 1) == "2";
  }

  /** A digit string is determined by what it is followed by, up to the dash. */
  lemma DashSplits(a: string, b: string, x: string, y: string)
    requires IsDigits(a) && IsDigits(b) && a + "-" + x == b + "-" + y
    ensures a == b && x == y
  {
    var s := a + "-" + x;
    assert s[|a|] == '-' && s[|b|] == '-';
    assert forall k :: 0 <= k < |a| ==> s[k] == a[k] && IsDigit(s[k]);
    assert forall k :: 0 <= k < |b| ==> s[k] == b[k] && IsDigit(s[k]);
    assert a == s[..|a|] && b == s[..|b|];
    assert x == s[|a| + 1..] && y == s[|b| + 1..];
  }

  lemma WeekKeyInjective(a: Date, b: Date)
    requires ValidDate(a) && ValidDate(b) && DateWeekKey(a) == DateWeekKey(b)
    ensures a.year == b.year && WeekNumber(a.year, YearDay(a)) == WeekNumber(b.year, YearDay(b))
  {
    var wa, wb := WeekNumber(a.year, YearDay(a)), WeekNumber(b.year, YearDay(b));
    KeySplits(a, wa);
    KeySplits(b, wb);
    DashSplits(Decimal(a.year), Decimal(b.year), "W" + Pad(wa, 2), "W" + Pad(wb, 2));
    DecimalInjective(a.year, b.year);
    WeekFieldInjective(wa, wb);
  }

  lemma KeySplits(d: Date, week: nat)
    requires ValidDate(d) && week == WeekNumber(d.year, YearDay(d))
    ensures week <= 53 && DateWeekKey(d) == Decimal(d.year) + "-" + ("W" + Pad(week, 2))
  {
    WeekKeyShape(d);
    MoveDigit(Decimal(d.year), "-", "W" + Pad(week, 2));
    MoveDigit("-", "W", Pad(week, 2));
    assert "-W" == "-" + "W";
  }

  lemma WeekFieldInjective(m: nat, n: nat)
    requires m <= 53 && n <= 53 && "W" + Pad(m, 2) == "W" + Pad(n, 2)
    ensures m == n
  {
    assert Pad(m, 2) == ("W" + Pad(m, 2))[1..] == ("W" + Pad(n, 2))[1..] == Pad(n, 2);
    assert Pow10(2) == 100;
    PadOrder(m, n, 2);
  }

  lemma SameWeekNumber(a: Date, b: Date)
    requires ValidDate(a) && ValidDate(b) && a.year == b.year && YearDay(a) <= YearDay(b)
    ensures WeekNumber(a.year, YearDay(a)) == WeekNumber(b.year, YearDay(b)) <==>
              forall n :: DayNumber(a) < n <= DayNumber(b) ==> !OnMonday(n)
  {
    WeekCounts(a.year, YearDay(a));
    WeekCounts(b.year, YearDay(b));
    MondaysBetween(a.year, YearDay(a), YearDay(b));
    NoMondayBetween(a.year, YearDay(a), YearDay(b), DaysBeforeYear(a.year) - 1);
  }

  /** Two dates share a key if and only if they share the year and no Monday lies after the earlier
      one and up to the later one. */
  lemma SameWeekKey(a: Date, b: Date)
    requires ValidDate(a) && ValidDate(b) && YearDay(a) <= YearDay(b)
    ensures DateWeekKey(a) == DateWeekKey(b) <==>
              && a.year == b.year
              && forall n :: DayNumber(a) < n <= DayNumber(b) ==> !OnMonday(n)
  {
    if a.year == b.year {
      SameWeekNumber(a, b);
    }
    if DateWeekKey(a) == DateWeekKey(b) {
      WeekKeyInjective(a, b);
    }
  }

  lemma NoMondayBetween(year: nat, a: nat, b: nat, last: int)
    requires year >= 1 && a <= b && last == DaysBeforeYear(year) - 1
    ensures (forall k: nat :: a < k <= b ==> !IsMonday(year, k))
            <==> forall n :: last + a < n <= last + b ==> !OnMonday(n)
  {
    if n :| last + a < n <= last + b && OnMonday(n) {
      assert IsMonday(year, n - last);
    }
  }

  lemma WeeksAdvance(a: Date, b: Date)
    requires ValidDate(a) && ValidDate(b) && DateBefore(a, b) && a.year == b.year
    ensures WeekNumber(a.year, YearDay(a)) <= WeekNumber(b.year, YearDay(b))
  {
    DateOrder(a, b);
    WeekCounts(a.year, YearDay(a));
    WeekCounts(b.year, YearDay(b));
    MondaysBetween(a.year, YearDay(a), YearDay(b));
  }

  /** In four-digit years the keys sort, as strings, in the order of time. */
  lemma WeekKeysSort(a: Date, b: Date)
    requires ValidDate(a) && ValidDate(b) && a.year >= 1000 && b.year >= 1000 && DateBefore(a, b)
    ensures AtMost(DateWeekKey(a), DateWeekKey(b))
  {
    WeekKeyShape(a);
    WeekKeyShape(b);
    var wa, wb := WeekNumber(a.year, YearDay(a)), WeekNumber(b.year, YearDay(b));
    assert Pow10(3) == 1000 && Pow10(4) == 10000 && Pow10(2) == 100;
    DecimalIsPad(a.year, 4);
    DecimalIsPad(b.year, 4);
    PadOrder(b.year, a.year, 4);
    PadOrder(wb, wa, 2);
    LessByFields(Decimal(b.year), Decimal(a.year), "-W" + Pad(wb, 2), "-W" + Pad(wa, 2));
    LessByFields("-W", "-W", Pad(wb, 2), Pad(wa, 2));
    LessIrreflexive("-W");
    if a.year == b.year {
      WeeksAdvance(a, b);
    }
  }

  /** For any years: keys sort in the order of time exactly if the years are the same, or their
      decimals, each followed by the dash, do: exactly if the earlier year is at most what the
      leading digits of the later one, as many as the earlier one has, stand for. */
  lemma WeekKeysSortExactly(a: Date, b: Date)
    requires ValidDate(a) && ValidDate(b) && DateBefore(a, b)
    ensures AtMost(DateWeekKey(a), DateWeekKey(b)) <==>
              a.year == b.year || Less(Decimal(a.year) + "-", Decimal(b.year) + "-")
    ensures |Decimal(a.year)| <= |Decimal(b.year)|
    ensures AtMost(DateWeekKey(a), DateWeekKey(b)) <==>
              a.year <= b.year / Pow10(|Decimal(b.year)| - |Decimal(a.year)|)
  {
    var wa, wb := WeekNumber(a.year, YearDay(a)), WeekNumber(b.year, YearDay(b));
    KeySplits(a, wa);
    KeySplits(b, wb);
    var p, q := Decimal(a.year) + "-", Decimal(b.year) + "-";
    if a.year == b.year {
      LessByFields(q, p, "W" + Pad(wb, 2), "W" + Pad(wa, 2));
      LessIrreflexive(p);
      SameYearSorts(a, b, wa, wb);
      assert Pow10(0) == 1;
    } else {
      DashedOrder(a.year, b.year);
      DecimalsAreNoPrefixes(a.year, b.year);
      DecimalsAreNoPrefixes(b.year, a.year);
      PrefixesDecide(q, p, "W" + Pad(wb, 2), "W" + Pad(wa, 2));
      LessTotal(p, q);
    }
  }

  lemma SameYearSorts(a: Date, b: Date, wa: nat, wb: nat)
    requires ValidDate(a) && ValidDate(b) && DateBefore(a, b) && a.year == b.year
    requires wa == WeekNumber(a.year, YearDay(a)) <= 53 && wb == WeekNumber(b.year, YearDay(b)) <= 53
    ensures !Less("W" + Pad(wb, 2), "W" + Pad(wa, 2))
  {
    WeeksAdvance(a, b);
    assert Pow10(2) == 100;
    PadOrder(wb, wa, 2);
    LessByFields("W", "W", Pad(wb, 2), Pad(wa, 2));
    LessIrreflexive("W");
  }

  /** A three-digit year breaks the order: its key is not padded. */
  lemma WeekKeysOfShortYearsDoNotSort()
    ensures var a, b := Date(999, 12, 31), Date(1000, 1, 1);
            && ValidDate(a) && ValidDate(b) && DateBefore(a, b)
            && Less(DateWeekKey(b), DateWeekKey(a))
  {
    var a, b := Date(999, 12, 31), Date(1000, 1, 1);
    WeekKeyShape(a);
    WeekKeyShape(b);
    FirstDigits();
    FirstCharacterDecides(DateWeekKey(b), DateWeekKey(a));
  }

  lemma FirstDigits()
    ensures Decimal(999)[0] == '9' && Decimal(1000)[0] == '1'
  {
    assert Decimal(999)[0] == Decimal(99)[0] == Decimal(9)[0];
    assert Decimal(1000)[0] == Decimal(100)[0] == Decimal(10)[0] == Decimal(1)[0];
  }

  lemma FirstCharacterDecides(s: string, t: string)
    requires s != "" && t != "" && s[0] < t[0]
    ensures Less(s, t)
  {
  }
}
