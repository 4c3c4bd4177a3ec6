/**
  Calendar arithmetic behind the sales ledger's timestamps: the text Python's
  datetime.isoformat(timespec="seconds") writes into a transaction header, and
  the period keys SQLite's date() and strftime() derive from it for the sales
  report ('%Y-%m-%d', '%Y-%m' and '%Y-W%W'). The calendar is the proleptic
  Gregorian one both Python and SQLite use.
*/
module Calendar {
  import opened Text

  datatype Date = Date(year: nat, month: nat, day: nat)
  datatype DateTime = DateTime(date: Date, hour: nat, minute: nat, second: nat)

  predicate IsLeap(y: nat) {
    y % 4 == 0 && (y % 100 != 0 || y % 400 == 0)
  }

  function DaysInMonth(y: nat, m: nat): (n: nat)
    ensures 28 <= n <= 31
  {
    if m == 2 then (if IsLeap(y) then 29 else 28)
    else if m == 4 || m == 6 || m == 9 || m == 11 then 30
    else 31
  }

  /** A date Python's datetime can hold. */
  predicate ValidDate(d: Date) {
    1 <= d.year <= 9999 && 1 <= d.month <= 12 && 1 <= d.day <= DaysInMonth(d.year, d.month)
  }

  /** Days of the year y before the first day of month m. */
  function DaysBeforeMonth(y: nat, m: nat): nat
    requires 1 <= m <= 12
  {
    if m == 1 then 0 else DaysBeforeMonth(y, m - 1) + DaysInMonth(y, m - 1)
  }

  /** 0-based day of the year (C's tm_yday): 0 for the 1st of January. */
  function DayOfYear(d: Date): nat
    requires 1 <= d.month <= 12 && 1 <= d.day
  {
    DaysBeforeMonth(d.year, d.month) + d.day - 1
  }

  /** Weekday of the 1st of January of year y, 0 for Sunday (Gauss's rule; C's tm_wday numbering). */
  function Jan1Weekday(y: nat): (w: nat)
    ensures w < 7
  {
    var a := y as int - 1;
    (1 + 5 * (a % 4) + 4 * (a % 100) + 6 * (a % 400)) % 7
  }

  /** Monday-first weekday of day n (0-based) of year y: 0 for Monday, 6 for Sunday. */
  function MondayIndex(y: nat, n: nat): (w: nat)
    ensures w < 7
  {
    (Jan1Weekday(y) + n + 6) % 7
  }

  /**
    strftime's %W for day n (0-based) of year y: the week number of the year with
    Monday as the first day of the week; days before the year's first Monday are
    in week 0.
  */
  function MondayWeek(y: nat, n: nat): nat {
    (n + 7 - MondayIndex(y, n)) / 7
  }

  /** Number of Mondays among days 0..n of year y. */
  function MondaysUpTo(y: nat, n: nat): nat {
    (if n == 0 then 0 else MondaysUpTo(y, n - 1)) + (if MondayIndex(y, n) == 0 then 1 else 0)
  }

  lemma Mod7Succ(x: nat)
    ensures (x + 1) % 7 == if x % 7 == 6 then 0 else x % 7 + 1
  {
  }

  lemma NextMondayIndex(y: nat, n: nat)
    ensures MondayIndex(y, n + 1) == if MondayIndex(y, n) == 6 then 0 else MondayIndex(y, n) + 1
  {
    Mod7Succ(Jan1Weekday(y) + n + 6);
  }

  /** Going to the next day, the %W week number grows by one exactly when the next day is a Monday. */
  lemma MondayWeekStep(y: nat, n: nat)
    ensures MondayWeek(y, n + 1) == MondayWeek(y, n) + (if MondayIndex(y, n + 1) == 0 then 1 else 0)
  {
    NextMondayIndex(y, n);
  }

  /** The %W week number of a day is the number of Mondays of its year up to and including it. */
  lemma {:induction false} MondayWeekCountsMondays(y: nat, n: nat)
    ensures MondayWeek(y, n) == MondaysUpTo(y, n)
    decreases n
  {
    if n > 0 {
      MondayWeekCountsMondays(y, n - 1);
      MondayWeekStep(y, n - 1);
    }
  }

  /** strftime('%W') of a date. */
  function WeekOfYear(d: Date): nat
    requires 1 <= d.month <= 12 && 1 <= d.day
  {
    MondayWeek(d.year, DayOfYear(d))
  }

  /** SQLite's date(t): the calendar day of a timestamp as 'YYYY-MM-DD'. */
  function DayKey(d: Date): string {
    Padded(d.year, 4) + ("-" + (Padded(d.month, 2) + ("-" + Padded(d.day, 2))))
  }

  /** SQLite's strftime('%Y-%m', t). */
  function MonthKey(d: Date): string {
    Padded(d.year, 4) + ("-" + Padded(d.month, 2))
  }

  /** SQLite's strftime('%Y-W%W', t). For a date with a month outside 1..12 SQLite would give NULL; valid dates only reach it here. */
  function WeekKey(d: Date): string {
    Padded(d.year, 4) + ("-W" + Padded(if 1 <= d.month <= 12 && 1 <= d.day then WeekOfYear(d) else 0, 2))
  }

  /** Python's datetime.isoformat(timespec="seconds"): 'YYYY-MM-DDTHH:MM:SS'. */
  function IsoText(t: DateTime): string {
    DayKey(t.date) + "T" + Padded(t.hour, 2) + ":" + Padded(t.minute, 2) + ":" + Padded(t.second, 2)
  }

  /** Chronological order of calendar days. */
  predicate Before(a: Date, b: Date) {
    a.year < b.year
    || (a.year == b.year && a.month < b.month)
    || (a.year == b.year && a.month == b.month && a.day < b.day)
  }

  /** Splitting a concatenation whose first parts have the same length. */
  lemma SplitSameLength(p: string, s: string, q: string, t: string)
    requires |p| == |q| && p + s == q + t
    ensures p == q && s == t
  {
    assert p == (p + s)[..|p|] && q == (q + t)[..|q|];
    assert s == (p + s)[|p|..] && t == (q + t)[|q|..];
  }

  /** Keys that open with a four-digit year: equal keys have equal years and equal remainders. */
  lemma YearPrefixInjective(y1: nat, r1: string, y2: nat, r2: string)
    requires y1 < 10000 && y2 < 10000
    requires Padded(y1, 4) + r1 == Padded(y2, 4) + r2
    ensures y1 == y2 && r1 == r2
  {
    assert Pow10(4) == 10000;
    PaddedLength(y1, 4);
    PaddedLength(y2, 4);
    SplitSameLength(Padded(y1, 4), r1, Padded(y2, 4), r2);
    PaddedInjective(y1, y2, 4);
  }

  /** Remainders that open with a two-digit number. */
  lemma TwoDigitPrefixInjective(m1: nat, r1: string, m2: nat, r2: string)
    requires m1 < 100 && m2 < 100
    requires Padded(m1, 2) + r1 == Padded(m2, 2) + r2
    ensures m1 == m2 && r1 == r2
  {
    assert Pow10(2) == 100;
    PaddedLength(m1, 2);
    PaddedLength(m2, 2);
    SplitSameLength(Padded(m1, 2), r1, Padded(m2, 2), r2);
    PaddedInjective(m1, m2, 2);
  }

  /** Two valid dates fall in the same '%Y-%m' group exactly when they share year and month. */
  lemma MonthKeyGroupsByMonth(a: Date, b: Date)
    requires ValidDate(a) && ValidDate(b)
    ensures MonthKey(a) == MonthKey(b) <==> a.year == b.year && a.month == b.month
  {
    if MonthKey(a) == MonthKey(b) {
      var ra, rb := "-" + Padded(a.month, 2), "-" + Padded(b.month, 2);
      YearPrefixInjective(a.year, ra, b.year, rb);
      assert Padded(a.month, 2) == ra[1..] && Padded(b.month, 2) == rb[1..];
      PaddedInjective(a.month, b.month, 2);
    }
  }

  /** Two valid dates fall in the same daily group exactly when they are the same day. */
  lemma DayKeyGroupsByDay(a: Date, b: Date)
    requires ValidDate(a) && ValidDate(b)
    ensures DayKey(a) == DayKey(b) <==> a == b
  {
    if DayKey(a) == DayKey(b) {
      var da, db := "-" + Padded(a.day, 2), "-" + Padded(b.day, 2);
      var ma, mb := Padded(a.month, 2) + da, Padded(b.month, 2) + db;
      YearPrefixInjective(a.year, "-" + ma, b.year, "-" + mb);
      assert ma == ("-" + ma)[1..] && mb == ("-" + mb)[1..];
      TwoDigitPrefixInjective(a.month, da, b.month, db);
      assert Padded(a.day, 2) == da[1..] && Padded(b.day, 2) == db[1..];
      PaddedInjective(a.day, b.day, 2);
    }
  }

  /** Texts opening with the same character compare as their remainders do. */
  lemma LessAfterDash(x: string, y: string)
    ensures Less("-" + x, "-" + y) == Less(x, y)
  {
    LessOfConcat("-", x, "-", y);
  }

  /** Comparing two-digit fields followed by remainders. */
  lemma TwoDigitOrder(m1: nat, r1: string, m2: nat, r2: string)
    requires m1 < 100 && m2 < 100
    ensures Less(Padded(m1, 2) + r1, Padded(m2, 2) + r2) == if m1 == m2 then Less(r1, r2) else m1 < m2
  {
    assert Pow10(2) == 100;
    PaddedLength(m1, 2);
    PaddedLength(m2, 2);
    LessOfConcat(Padded(m1, 2), r1, Padded(m2, 2), r2);
    PaddedOrder(m1, m2, 2);
    if Padded(m1, 2) == Padded(m2, 2) {
      PaddedInjective(m1, m2, 2);
    }
  }

  /** Comparing four-digit years followed by remainders. */
  lemma YearOrder(y1: nat, r1: string, y2: nat, r2: string)
    requires y1 < 10000 && y2 < 10000
    ensures Less(Padded(y1, 4) + r1, Padded(y2, 4) + r2) == if y1 == y2 then Less(r1, r2) else y1 < y2
  {
    assert Pow10(4) == 10000;
    PaddedLength(y1, 4);
    PaddedLength(y2, 4);
    LessOfConcat(Padded(y1, 4), r1, Padded(y2, 4), r2);
    PaddedOrder(y1, y2, 4);
    if Padded(y1, 4) == Padded(y2, 4) {
      PaddedInjective(y1, y2, 4);
    }
  }

  /** For valid dates, the text order of 'YYYY-MM-DD' keys is the chronological order. */
  lemma DayKeyOrder(a: Date, b: Date)
    requires ValidDate(a) && ValidDate(b)
    ensures Less(DayKey(a), DayKey(b)) <==> Before(a, b)
  {
    var da, db := "-" + Padded(a.day, 2), "-" + Padded(b.day, 2);
    var ma, mb := Padded(a.month, 2) + da, Padded(b.month, 2) + db;
    YearOrder(a.year, "-" + ma, b.year, "-" + mb);
    LessAfterDash(ma, mb);
    TwoDigitOrder(a.month, da, b.month, db);
    LessAfterDash(Padded(a.day, 2), Padded(b.day, 2));
    assert Padded(a.day, 2) == Padded(a.day, 2) + "" && Padded(b.day, 2) == Padded(b.day, 2) + "";
    TwoDigitOrder(a.day, "", b.day, "");
  }

  /** For valid dates, the text order of 'YYYY-MM' keys is the order of months. */
  lemma MonthKeyOrder(a: Date, b: Date)
    requires ValidDate(a) && ValidDate(b)
    ensures Less(MonthKey(a), MonthKey(b)) <==> a.year < b.year || (a.year == b.year && a.month < b.month)
  {
    YearOrder(a.year, "-" + Padded(a.month, 2), b.year, "-" + Padded(b.month, 2));
    LessAfterDash(Padded(a.month, 2), Padded(b.month, 2));
    assert Padded(a.month, 2) == Padded(a.month, 2) + "" && Padded(b.month, 2) == Padded(b.month, 2) + "";
    TwoDigitOrder(a.month, "", b.month, "");
  }

  lemma Numeral2023()
    ensures Padded(2023, 4) == "2023"
  {
    assert Numeral(2) == "2" && Numeral(20) == "20" && Numeral(202) == "202";
    assert Numeral(2023) == "2023";
  }

  lemma NewYear2023Weeks()
    ensures WeekOfYear(Date(2023, 1, 1)) == 0 && WeekOfYear(Date(2023, 1, 2)) == 1
  {
    assert Jan1Weekday(2023) == 0;
    assert DayOfYear(Date(2023, 1, 1)) == 0 && DayOfYear(Date(2023, 1, 2)) == 1;
  }

  /** Sunday 1 January 2023 is in week 00 under %W (ISO 8601 puts it in week 52 of 2022); Monday 2 January opens week 01. */
  lemma WeekZeroBeforeFirstMonday()
    ensures WeekKey(Date(2023, 1, 1)) == "2023-W00"
    ensures WeekKey(Date(2023, 1, 2)) == "2023-W01"
  {
    Numeral2023();
    NewYear2023Weeks();
    assert Padded(0, 2) == "00" && Padded(1, 2) == "01";
  }
}
