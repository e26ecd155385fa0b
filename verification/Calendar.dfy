/** The calendar of web/lib/date-range.ts and of parseAsOf in internal/app/ai/customer_asof.go.
    Days are numbered from 0000-01-01 of the proleptic Gregorian calendar. */
module Calendar {

  import opened Wrappers

  datatype Date = Date(y: nat, m: nat, d: nat)

  predicate IsLeap(y: nat) { y % 4 == 0 && (y % 100 != 0 || y % 400 == 0) }

  function MonthLength(y: nat, m: nat): nat {
    if m == 2 then (if IsLeap(y) then 29 else 28) else if m == 4 || m == 6 || m == 9 || m == 11 then 30 else 31
  }

  function YearLength(y: nat): nat { if IsLeap(y) then 366 else 365 }

  predicate Valid(t: Date) { 1 <= t.m <= 12 && 1 <= t.d <= MonthLength(t.y, t.m) }

  // ---- day numbers ----

  function YearStart(y: nat): nat { if y == 0 then 0 else YearStart(y - 1) + YearLength(y - 1) }

  function MonthStart(y: nat, m: nat): nat {
    if m <= 1 then 0 else MonthStart(y, m - 1) + MonthLength(y, m - 1)
  }

  /** The number of a day; days beyond the month run on, as Date.UTC and time.Date let them. */
  function DayNumber(y: nat, m: nat, d: int): int { YearStart(y) + MonthStart(y, m) + d - 1 }

  function DayOf(t: Date): int { DayNumber(t.y, t.m, t.d) }

  function YearOf(n: nat, y: nat): (nat, nat) {
    if n < YearLength(y) then (y, n) else YearOf(n - YearLength(y), y + 1)
  }

  function MonthOf(n: nat, y: nat, m: nat): (nat, nat)
    decreases 13 - m
  {
    if m >= 12 || n < MonthLength(y, m) then (m, n) else MonthOf(n - MonthLength(y, m), y, m + 1)
  }

  /** The date of a day number: what getUTCFullYear, getUTCMonth and getUTCDate give. */
  function DateOf(n: nat): Date {
    var (y, rest) := YearOf(n, 0);
    var (m, left) := MonthOf(rest, y, 1);
    Date(y, m, left + 1)
  }

  lemma {:induction false} MonthSum(y: nat, m: nat)
    requires 1 <= m <= 12
    ensures MonthStart(y, m) + MonthLength(y, m) <= YearLength(y)
    ensures m == 12 ==> MonthStart(y, m) + MonthLength(y, m) == YearLength(y)
    decreases 13 - m
  {
    if m == 12 {
      YearSum(y);
    } else {
      MonthSum(y, m + 1);
      assert MonthStart(y, m + 1) == MonthStart(y, m) + MonthLength(y, m);
    }
  }

  lemma YearSum(y: nat)
    ensures MonthStart(y, 12) + 31 == YearLength(y)
  {
    hide IsLeap;
    var f := MonthLength(y, 2);
    assert MonthStart(y, 2) == 31;
    assert MonthStart(y, 4) == 62 + f;
    assert MonthStart(y, 6) == 123 + f;
    assert MonthStart(y, 8) == 184 + f;
    assert MonthStart(y, 10) == 245 + f;
  }

  lemma {:induction false} YearOfIs(y: nat, from: nat, n: nat)
    requires from <= y && n < YearLength(y)
    ensures YearStart(from) <= YearStart(y) && YearOf(YearStart(y) - YearStart(from) + n, from) == (y, n)
    decreases y - from
  {
    if from < y {
      YearOfIs(y, from + 1, n);
    }
  }

  lemma {:induction false} MonthOfIs(y: nat, m: nat, from: nat, n: nat)
    requires 1 <= from <= m <= 12 && n < MonthLength(y, m)
    ensures MonthStart(y, from) <= MonthStart(y, m) && MonthOf(MonthStart(y, m) - MonthStart(y, from) + n, y, from) == (m, n)
    decreases m - from
  {
    if from < m {
      MonthOfIs(y, m, from + 1, n);
      assert MonthStart(y, from + 1) == MonthStart(y, from) + MonthLength(y, from);
    }
  }

  /** Every valid date comes back from its day number. */
  lemma DateBack(t: Date)
    requires Valid(t)
    ensures DayOf(t) >= 0 && DateOf(DayOf(t)) == t
  {
    hide YearOf, MonthOf, MonthLength, YearLength;
    MonthSum(t.y, t.m);
    YearOfIs(t.y, 0, MonthStart(t.y, t.m) + t.d - 1);
    MonthOfIs(t.y, t.m, 1, t.d - 1);
    assert YearStart(0) == 0 && MonthStart(t.y, 1) == 0;
  }

  lemma {:induction false} YearOfFits(n: nat, y: nat)
    ensures var (z, rest) := YearOf(n, y); z >= y && rest < YearLength(z) && YearStart(z) + rest == YearStart(y) + n
    decreases n
  {
    if n >= YearLength(y) {
      YearOfFits(n - YearLength(y), y + 1);
    }
  }

  lemma {:induction false} MonthOfFits(n: nat, y: nat, m: nat)
    requires 1 <= m <= 12 && MonthStart(y, m) + n < YearLength(y)
    ensures var (k, left) := MonthOf(n, y, m);
      m <= k <= 12 && left < MonthLength(y, k) && MonthStart(y, k) + left == MonthStart(y, m) + n
    decreases 13 - m
  {
    hide YearLength, MonthLength;
    if m == 12 {
      MonthSum(y, 12);
    } else if n >= MonthLength(y, m) {
      assert MonthStart(y, m + 1) == MonthStart(y, m) + MonthLength(y, m);
      MonthOfFits(n - MonthLength(y, m), y, m + 1);
    }
  }

  /** Every day number has a valid date, and comes back from it. */
  lemma NumberBack(n: nat)
    ensures Valid(DateOf(n)) && DayOf(DateOf(n)) == n
  {
    hide YearOf, MonthOf, MonthLength, YearLength;
    YearOfFits(n, 0);
    var (y, rest) := YearOf(n, 0);
    assert YearStart(0) == 0 && MonthStart(y, 1) == 0;
    MonthOfFits(rest, y, 1);
    var (m, left) := MonthOf(rest, y, 1);
    assert DateOf(n) == Date(y, m, left + 1);
  }

  // ---- weekdays ----

  /** getUTCDay: 0 is Sunday. */
  function Weekday(t: Date): int { (DayOf(t) + 6) % 7 }

  /** How many of the years before y are leap years. */
  function LeapsBefore(y: nat): int { (y + 3) / 4 - (y + 99) / 100 + (y + 399) / 400 }

  lemma LeapsStep(x: nat)
    ensures LeapsBefore(x + 1) == LeapsBefore(x) + One(IsLeap(x))
  {
    hide IsLeap, One;
    Fours(x);
    Hundreds(x);
    FourHundreds(x);
    LeapCount(x);
  }

  lemma {:induction false} YearStartIs(y: nat)
    ensures YearStart(y) == 365 * y + LeapsBefore(y)
  {
    hide IsLeap, LeapsBefore;
    if y == 0 {
      NoLeaps();
    } else {
      YearStartIs(y - 1);
      LeapsStep(y - 1);
    }
  }

  lemma NoLeaps()
    ensures LeapsBefore(0) == 0
  {
  }

  lemma Fours(x: nat)
    ensures (x + 4) / 4 == (x + 3) / 4 + One(x % 4 == 0)
  {
  }

  lemma Hundreds(x: nat)
    ensures (x + 100) / 100 == (x + 99) / 100 + One(x % 100 == 0)
  {
  }

  lemma FourHundreds(x: nat)
    ensures (x + 400) / 400 == (x + 399) / 400 + One(x % 400 == 0)
  {
  }

  lemma LeapCount(x: nat)
    ensures One(IsLeap(x)) == One(x % 4 == 0) - One(x % 100 == 0) + One(x % 400 == 0)
  {
    assert x % 100 == 0 ==> x % 4 == 0;
    assert x % 400 == 0 ==> x % 100 == 0;
  }

  /** The first day of 1970, day zero of a JavaScript Date, was a Thursday. */
  lemma EpochIsThursday()
    ensures DayOf(Date(1970, 1, 1)) == 719528 && Weekday(Date(1970, 1, 1)) == 4
  {
    hide YearStart;
    YearStartIs(1970);
    assert MonthStart(1970, 1) == 0;
  }

  // ---- the ranges ----

  /** A day the shop's clock can show; Date.UTC reads years below 100 as 19xx. */
  predicate Showable(t: Date) { Valid(t) && t.y >= 100 }

  function AddDays(t: Date, delta: int): Date
    requires Showable(t) && delta > -365
  {
    YearsAreLong(t.y);
    DateOf(DayNumber(t.y, t.m, t.d + delta))
  }

  lemma {:induction false} YearsAreLong(y: nat)
    ensures YearStart(y) >= 365 * y
  {
    if y > 0 {
      YearsAreLong(y - 1);
    }
  }

  /** Day 0 of the next month. */
  function LastDayOfMonth(y: nat, m: nat): nat
    requires y >= 100 && 1 <= m <= 12
  {
    var (ny, nm) := if m == 12 then (y + 1, 1) else (y, m + 1);
    YearsAreLong(ny);
    DateOf(DayNumber(ny, nm, 0)).d
  }

  function Monday(today: Date): Date
    requires Showable(today)
  {
    AddDays(today, -((Weekday(today) + 6) % 7))
  }

  datatype Span = Span(from: Date, to: Date)

  function ThisWeek(today: Date): Span
    requires Showable(today)
  {
    var monday := Monday(today);
    Span(monday, if Showable(monday) then AddDays(monday, 6) else monday)
  }

  function MonthSpan(y: nat, m: nat): Span
    requires y >= 100 && 1 <= m <= 12
  {
    Span(Date(y, m, 1), Date(y, m, LastDayOfMonth(y, m)))
  }

  function ThisMonth(today: Date): Span
    requires Showable(today)
  {
    MonthSpan(today.y, today.m)
  }

  function LastMonth(today: Date): Span
    requires Showable(today) && today.y > 100
  {
    if today.m == 1 then MonthSpan(today.y - 1, 12) else MonthSpan(today.y, today.m - 1)
  }

  lemma AddDaysIs(t: Date, delta: int)
    requires Showable(t) && delta > -365
    ensures Valid(AddDays(t, delta)) && DayOf(AddDays(t, delta)) == DayOf(t) + delta
  {
    hide DateOf, YearStart, MonthStart, MonthLength;
    YearsAreLong(t.y);
    NumberBack(DayNumber(t.y, t.m, t.d + delta));
  }

  lemma {:induction false} YearsGrow(a: nat, b: nat)
    requires a < b
    ensures YearStart(a) + YearLength(a) <= YearStart(b)
    decreases b - a
  {
    hide YearLength;
    if a + 1 < b {
      YearsGrow(a, b - 1);
    }
  }

  lemma {:induction false} MonthsGrow(y: nat, a: nat, b: nat)
    requires 1 <= a < b <= 12
    ensures MonthStart(y, a) + MonthLength(y, a) <= MonthStart(y, b)
    decreases b - a
  {
    hide MonthLength;
    if a + 1 < b {
      MonthsGrow(y, a, b - 1);
    }
  }

  predicate Earlier(a: Date, b: Date) { a.y < b.y || (a.y == b.y && (a.m < b.m || (a.m == b.m && a.d < b.d))) }

  /** Day numbers follow year, month and day. */
  lemma DayOrder(a: Date, b: Date)
    requires Valid(a) && Valid(b)
    ensures DayOf(a) < DayOf(b) <==> Earlier(a, b)
    ensures DayOf(a) == DayOf(b) <==> a == b
  {
    hide YearStart, MonthStart, MonthLength, YearLength;
    MonthSum(a.y, a.m);
    MonthSum(b.y, b.m);
    if a.y < b.y {
      YearsGrow(a.y, b.y);
    } else if b.y < a.y {
      YearsGrow(b.y, a.y);
    } else if a.m < b.m {
      MonthsGrow(a.y, a.m, b.m);
    } else if b.m < a.m {
      MonthsGrow(a.y, b.m, a.m);
    }
  }

  /** this_week starts on a Monday, spans seven days and contains the day. */
  lemma WeekIs(today: Date)
    requires Showable(today) && today.y > 100
    ensures var w := ThisWeek(today);
      && Valid(w.from) && Valid(w.to) && Weekday(w.from) == 1 && DayOf(w.to) == DayOf(w.from) + 6
      && DayOf(w.from) <= DayOf(today) <= DayOf(w.to)
  {
    hide DateOf, YearStart, MonthStart, MonthLength, AddDays, DayOf;
    var back := (Weekday(today) + 6) % 7;
    AddDaysIs(today, -back);
    NearYear(Monday(today), today, back);
    AddDaysIs(Monday(today), 6);
    MondayArithmetic(DayOf(today));
  }

  lemma MondayArithmetic(n: int)
    ensures ((n - ((n + 6) % 7 + 6) % 7) + 6) % 7 == 1
  {
  }

  /** A week back from a year after 100 does not reach the year 99. */
  lemma NearYear(a: Date, b: Date, back: nat)
    requires Valid(a) && Valid(b) && b.y > 100 && DayOf(a) == DayOf(b) - back && back < 7
    ensures Showable(a)
  {
    hide DateOf, MonthStart, MonthLength, YearLength;
    if a.y < 100 {
      MonthSum(a.y, a.m);
      YearsGrow(a.y, b.y);
      YearsGrow(100, b.y);
      if a.y < 100 {
        YearsGrow(a.y, 100);
        LongYear(100);
      }
    }
  }

  lemma LongYear(y: nat)
    ensures YearLength(y) >= 365
  {
  }

  /** Two days' weeks are the same or do not meet; they are the same exactly when one
      contains the other's day. */
  lemma WeeksPartition(a: Date, b: Date)
    requires Showable(a) && Showable(b) && a.y > 100 && b.y > 100
    ensures var v, w := ThisWeek(a), ThisWeek(b);
      v == w || DayOf(v.to) < DayOf(w.from) || DayOf(w.to) < DayOf(v.from)
    ensures ThisWeek(a) == ThisWeek(b) <==> DayOf(ThisWeek(a).from) <= DayOf(b) <= DayOf(ThisWeek(a).to)
  {
    hide DateOf, DayOf, ThisWeek;
    WeekIs(a);
    WeekIs(b);
    var v, w := ThisWeek(a), ThisWeek(b);
    var m, n := DayOf(v.from), DayOf(w.from);
    assert (m + 6) % 7 == (n + 6) % 7;
    SameWeekday(m, n);
    DayOrder(v.from, w.from);
    DayOrder(v.to, w.to);
  }

  lemma SameWeekday(m: int, n: int)
    requires (m + 6) % 7 == (n + 6) % 7
    ensures m == n || m + 7 <= n || n + 7 <= m
  {
  }

  lemma LastDayIs(y: nat, m: nat)
    requires y >= 100 && 1 <= m <= 12
    ensures LastDayOfMonth(y, m) == MonthLength(y, m)
  {
    hide DateOf, YearLength, MonthLength;
    var (ny, nm) := if m == 12 then (y + 1, 1) else (y, m + 1);
    YearsAreLong(ny);
    MonthSum(y, m);
    MonthLong(y, m);
    var t := Date(y, m, MonthLength(y, m));
    assert DayNumber(ny, nm, 0) == DayOf(t);
    DateBack(t);
  }

  lemma MonthLong(y: nat, m: nat)
    ensures MonthLength(y, m) >= 28
  {
  }

  /** this_month holds exactly the days of the month. */
  lemma MonthIs(today: Date, t: Date)
    requires Showable(today) && Valid(t)
    ensures var s := ThisMonth(today); Valid(s.from) && Valid(s.to)
    ensures var s := ThisMonth(today); DayOf(s.from) <= DayOf(t) <= DayOf(s.to) <==> t.y == today.y && t.m == today.m
  {
    hide DateOf, YearLength, MonthLength, DayOf;
    LastDayIs(today.y, today.m);
    MonthLong(today.y, today.m);
    var s := ThisMonth(today);
    DayOrder(t, s.from);
    DayOrder(s.to, t);
  }

  /** last_month ends on the day before this_month starts, and starts on a first. */
  lemma LastMonthJoins(today: Date)
    requires Showable(today) && today.y > 100
    ensures DayOf(LastMonth(today).to) + 1 == DayOf(ThisMonth(today).from) && LastMonth(today).from.d == 1
  {
    hide DateOf, YearLength, MonthLength;
    var y, m := if today.m == 1 then today.y - 1 else today.y, if today.m == 1 then 12 else today.m - 1;
    LastDayIs(y, m);
    MonthSum(y, m);
  }

  // ---- the text form ----

  function Digit(n: nat): char { ('0' as int + n % 10) as char }

  /** padStart(2, "0") of a number below 100. */
  function Pad(n: nat): string { [Digit(n / 10), Digit(n)] }

  /** A year of four digits. */
  function Year(y: nat): string { Pad(y / 100) + Pad(y % 100) }

  predicate FourDigits(t: Date) { Valid(t) && 1000 <= t.y <= 9999 }

  function Fmt(t: Date): string { Year(t.y) + "-" + Pad(t.m) + "-" + Pad(t.d) }

  /** The order of strings of one length. */
  predicate Less(a: string, b: string)
    requires |a| == |b|
  {
    exists k :: 0 <= k < |a| && a[..k] == b[..k] && a[k] < b[k]
  }

  /** Two digits compare as their number. */
  lemma PadOrder(a: nat, b: nat)
    requires a < 100 && b < 100
    ensures Pad(a) == Pad(b) <==> a == b
    ensures a < b <==> Pad(a)[0] < Pad(b)[0] || (Pad(a)[0] == Pad(b)[0] && Pad(a)[1] < Pad(b)[1])
  {
    DigitOrder(a / 10, b / 10);
    DigitOrder(a % 10, b % 10);
    assert a == 10 * (a / 10) + a % 10 && b == 10 * (b / 10) + b % 10;
  }

  lemma DigitOrder(a: nat, b: nat)
    requires a < 10 && b < 10
    ensures Digit(a) < Digit(b) <==> a < b
    ensures Digit(a) == Digit(b) <==> a == b
  {
  }

  lemma LessAppend(u: string, v: string, a: string, b: string)
    requires |u| == |v| && |a| == |b|
    ensures Less(u + a, v + b) <==> Less(u, v) || (u == v && Less(a, b))
  {
    hide Less;
    if Less(u, v) {
      LessFront(u, v, a, b);
    }
    if u == v && Less(a, b) {
      LessBack(u, a, b);
    }
    if Less(u + a, v + b) {
      LessSplit(u, v, a, b);
    }
  }

  lemma LessFront(u: string, v: string, a: string, b: string)
    requires |u| == |v| && |a| == |b| && Less(u, v)
    ensures Less(u + a, v + b)
  {
    var x, y := u + a, v + b;
    var k :| 0 <= k < |u| && u[..k] == v[..k] && u[k] < v[k];
    assert x[..k] == u[..k] && y[..k] == v[..k] && x[k] == u[k] && y[k] == v[k];
  }

  lemma LessBack(u: string, a: string, b: string)
    requires |a| == |b| && Less(a, b)
    ensures Less(u + a, u + b)
  {
    var x, y := u + a, u + b;
    var k :| 0 <= k < |a| && a[..k] == b[..k] && a[k] < b[k];
    assert x[..|u| + k] == u + a[..k] && y[..|u| + k] == u + b[..k] && x[|u| + k] == a[k] && y[|u| + k] == b[k];
  }

  lemma LessSplit(u: string, v: string, a: string, b: string)
    requires |u| == |v| && |a| == |b| && Less(u + a, v + b)
    ensures Less(u, v) || (u == v && Less(a, b))
  {
    var x, y := u + a, v + b;
    var k :| 0 <= k < |x| && x[..k] == y[..k] && x[k] < y[k];
    if k < |u| {
      assert x[..k] == u[..k] && y[..k] == v[..k] && x[k] == u[k] && y[k] == v[k];
    } else {
      assert u == x[..k][..|u|] && v == y[..k][..|u|];
      assert a[..k - |u|] == x[..k][|u|..] && b[..k - |u|] == y[..k][|u|..];
      assert x[k] == a[k - |u|] && y[k] == b[k - |u|];
    }
  }

  lemma PadLess(a: nat, b: nat)
    requires a < 100 && b < 100
    ensures Less(Pad(a), Pad(b)) <==> a < b
    ensures Pad(a) == Pad(b) <==> a == b
  {
    hide Digit, Pad;
    PadLength();
    PadOrder(a, b);
    TwoLess(Pad(a), Pad(b));
  }

  lemma TwoLess(x: string, y: string)
    requires |x| == |y| == 2
    ensures Less(x, y) <==> x[0] < y[0] || (x[0] == y[0] && x[1] < y[1])
  {
    if x[0] < y[0] {
      assert x[..0] == y[..0];
    }
    if x[0] == y[0] && x[1] < y[1] {
      assert x[..1] == [x[0]] && y[..1] == [y[0]];
    }
    if k :| 0 <= k < 2 && x[..k] == y[..k] && x[k] < y[k] {
      assert k == 1 ==> x[..1][0] == x[0] && y[..1][0] == y[0];
    }
  }

  /** For years of four digits the order of the texts is the order of the days, and the text
      fixes the date. */
  lemma TextOrderIsDayOrder(a: Date, b: Date)
    requires FourDigits(a) && FourDigits(b)
    ensures |Fmt(a)| == |Fmt(b)| == 10
    ensures Less(Fmt(a), Fmt(b)) <==> DayOf(a) < DayOf(b)
    ensures Fmt(a) == Fmt(b) <==> a == b
  {
    hide DayOf, Pad, Less;
    PadLength();
    DayOrder(a, b);
    YearLess(a.y, b.y);
    PadLess(a.m, b.m);
    PadLess(a.d, b.d);
    SameDash(Pad(a.m) + "-" + Pad(a.d), Pad(b.m) + "-" + Pad(b.d));
    SameDash(Pad(a.d), Pad(b.d));
    assert Fmt(a) == Year(a.y) + ("-" + (Pad(a.m) + "-" + Pad(a.d)));
    assert Fmt(b) == Year(b.y) + ("-" + (Pad(b.m) + "-" + Pad(b.d)));
    LessAppend(Year(a.y), Year(b.y), "-" + (Pad(a.m) + "-" + Pad(a.d)), "-" + (Pad(b.m) + "-" + Pad(b.d)));
    assert Pad(a.m) + "-" + Pad(a.d) == Pad(a.m) + ("-" + Pad(a.d));
    assert Pad(b.m) + "-" + Pad(b.d) == Pad(b.m) + ("-" + Pad(b.d));
    LessAppend(Pad(a.m), Pad(b.m), "-" + Pad(a.d), "-" + Pad(b.d));
    if Fmt(a) == Fmt(b) {
      SameText(a, b);
    }
  }

  lemma PadLength()
    ensures forall n :: |Pad(n)| == 2
  {
  }

  lemma YearLess(a: nat, b: nat)
    requires a <= 9999 && b <= 9999
    ensures Less(Year(a), Year(b)) <==> a < b
    ensures Year(a) == Year(b) <==> a == b
  {
    hide Pad, Less;
    PadLength();
    PadLess(a / 100, b / 100);
    PadLess(a % 100, b % 100);
    LessAppend(Pad(a / 100), Pad(b / 100), Pad(a % 100), Pad(b % 100));
    if Year(a) == Year(b) {
      assert Year(a)[..2] == Pad(a / 100) && Year(b)[..2] == Pad(b / 100);
      assert Year(a)[2..] == Pad(a % 100) && Year(b)[2..] == Pad(b % 100);
    }
    assert a == 100 * (a / 100) + a % 100 && b == 100 * (b / 100) + b % 100;
  }

  lemma SameDash(a: string, b: string)
    requires |a| == |b|
    ensures Less("-" + a, "-" + b) <==> Less(a, b)
  {
    LessAppend("-", "-", a, b);
  }

  lemma SameText(a: Date, b: Date)
    requires FourDigits(a) && FourDigits(b) && Fmt(a) == Fmt(b)
    ensures a == b
  {
    hide Pad, Less;
    PadLength();
    YearLess(a.y, b.y);
    PadLess(a.m, b.m);
    PadLess(a.d, b.d);
    assert Fmt(a)[..4] == Year(a.y) && Fmt(b)[..4] == Year(b.y);
    assert Fmt(a)[5..7] == Pad(a.m) && Fmt(b)[5..7] == Pad(b.m);
    assert Fmt(a)[8..] == Pad(a.d) && Fmt(b)[8..] == Pad(b.d);
  }

  datatype Preset = Today | Week | Month | Previous | All | Custom(from: string, to: string)

  /** The two texts a list filter gets; an empty text is no bound. */
  function ResolveDateRange(preset: Preset, today: Date): (string, string)
    requires Showable(today) && today.y > 100
  {
    match preset
    case All => ("", "")
    case Custom(from, to) => (from, to)
    case Today => (Fmt(today), Fmt(today))
    case Week => (Fmt(ThisWeek(today).from), Fmt(ThisWeek(today).to))
    case Month => (Fmt(ThisMonth(today).from), Fmt(ThisMonth(today).to))
    case Previous => (Fmt(LastMonth(today).from), Fmt(LastMonth(today).to))
  }

  /** Filtering texts by the week's two bounds keeps exactly the seven days of the week, when
      texts and bounds have four-digit years, as WeekYears says of the bounds. */
  lemma WeekFilterIsExact(today: Date, t: Date)
    requires Showable(today) && today.y > 100 && FourDigits(t)
    requires FourDigits(ThisWeek(today).from) && FourDigits(ThisWeek(today).to)
    ensures var (from, to) := ResolveDateRange(Week, today);
      && |from| == |to| == |Fmt(t)|
      && (!Less(Fmt(t), from) && !Less(to, Fmt(t)) <==> ThisWeek(today) == ThisWeek(t))
  {
    hide Fmt, Less, DayOf, ThisWeek;
    WeekIs(today);
    WeeksPartition(today, t);
    TextOrderIsDayOrder(t, ThisWeek(today).from);
    TextOrderIsDayOrder(ThisWeek(today).to, t);
  }

  /** A list keeps the days between two bounds, an empty text being none. */
  predicate Kept(bounds: (string, string), day: string) {
    && (bounds.0 == "" || (|bounds.0| == |day| && !Less(day, bounds.0)))
    && (bounds.1 == "" || (|bounds.1| == |day| && !Less(bounds.1, day)))
  }

  /** The days a preset is for. */
  predicate Wanted(preset: Preset, today: Date, t: Date)
    requires Showable(today) && today.y > 100 && FourDigits(t)
  {
    match preset
    case Today => t == today
    case Week => DayOf(ThisWeek(today).from) <= DayOf(t) <= DayOf(ThisWeek(today).to)
    case Month => t.y == today.y && t.m == today.m
    case Previous => 12 * t.y + t.m + 1 == 12 * today.y + today.m
    case All => true
    case Custom(from, to) => Kept((from, to), Fmt(t))
  }

  /** The two texts of every preset keep exactly its days. */
  lemma FilterIsExact(preset: Preset, today: Date, t: Date)
    requires Showable(today) && 1000 < today.y < 9999 && FourDigits(t)
    ensures Kept(ResolveDateRange(preset, today), Fmt(t)) <==> Wanted(preset, today, t)
  {
    hide Fmt, Less, DayOf, ThisWeek, ThisMonth, LastMonth;
    match preset
    case Today =>
      BetweenTexts(today, today, t);
      DayOrder(today, t);
    case Week =>
      WeekYears(today);
      BetweenTexts(ThisWeek(today).from, ThisWeek(today).to, t);
    case Month =>
      MonthYears(today);
      MonthIs(today, t);
      BetweenTexts(ThisMonth(today).from, ThisMonth(today).to, t);
    case Previous =>
      PreviousIs(today);
      MonthYears(Before(today));
      MonthIs(Before(today), t);
      BetweenTexts(LastMonth(today).from, LastMonth(today).to, t);
    case All =>
    case Custom(from, to) =>
  }

  /** The first day of the month before. */
  function Before(today: Date): Date
    requires Showable(today)
  {
    if today.m == 1 then Date(today.y - 1, 12, 1) else Date(today.y, today.m - 1, 1)
  }

  lemma PreviousIs(today: Date)
    requires Showable(today) && today.y > 100
    ensures Showable(Before(today)) && LastMonth(today) == ThisMonth(Before(today))
  {
    hide MonthLength;
    MonthLong(Before(today).y, Before(today).m);
  }

  lemma MonthYears(today: Date)
    requires Showable(today) && 1000 <= today.y <= 9999
    ensures FourDigits(ThisMonth(today).from) && FourDigits(ThisMonth(today).to)
  {
    hide DayOf, LastDayOfMonth;
    MonthIs(today, today);
  }

  /** Between two texts are the texts of the days between. */
  lemma BetweenTexts(from: Date, to: Date, t: Date)
    requires FourDigits(from) && FourDigits(to) && FourDigits(t)
    ensures Kept((Fmt(from), Fmt(to)), Fmt(t)) <==> DayOf(from) <= DayOf(t) <= DayOf(to)
  {
    hide Fmt, Less, DayOf;
    TextOrderIsDayOrder(t, from);
    TextOrderIsDayOrder(to, t);
    TextLength(from);
    TextLength(to);
  }

  lemma TextLength(t: Date)
    ensures |Fmt(t)| == 10
  {
  }

  /** The number a text of digits stands for. */
  function Number(s: string): Option<nat> {
    if s == "" then Some(0)
    else
      var c, front := s[|s| - 1], Number(s[..|s| - 1]);
      if '0' <= c <= '9' && front.Some? then Some(10 * front.value + (c as int - '0' as int)) else None
  }

  /** YYYY-MM-DD, as a later call splits it. */
  function ReadDate(s: string): Option<Date> {
    if |s| != 10 || s[4] != '-' || s[7] != '-' then None
    else
      match (Number(s[..4]), Number(s[5..7]), Number(s[8..]))
      case (Some(y), Some(m), Some(d)) => Some(Date(y, m, d))
      case _ => None
  }

  /** The text of a date is the date in that form. */
  lemma TextReadsBack(t: Date)
    requires FourDigits(t)
    ensures ReadDate(Fmt(t)) == Some(t)
  {
    hide Pad, Number, MonthLength;
    PadLength();
    MonthShort(t.y, t.m);
    PadReads(t.m);
    PadReads(t.d);
    YearReads(t.y);
    var s := Fmt(t);
    assert s[..4] == Year(t.y) && s[5..7] == Pad(t.m) && s[8..] == Pad(t.d);
  }

  lemma MonthShort(y: nat, m: nat)
    ensures MonthLength(y, m) <= 31
  {
  }

  lemma OneDigit(front: string, n: nat)
    ensures Number(front).Some? ==> Number(front + [Digit(n)]) == Some(10 * Number(front).value + n % 10)
  {
    assert (front + [Digit(n)])[..|front|] == front;
  }

  lemma TwoDigits(front: string, n: nat)
    requires n < 100 && Number(front).Some?
    ensures Number(front + Pad(n)) == Some(100 * Number(front).value + n)
  {
    hide Number, Digit;
    OneDigit(front, n / 10);
    OneDigit(front + [Digit(n / 10)], n);
    assert front + Pad(n) == front + [Digit(n / 10)] + [Digit(n)];
  }

  lemma PadReads(n: nat)
    requires n < 100
    ensures Number(Pad(n)) == Some(n)
  {
    hide Pad;
    TwoDigits("", n);
    assert "" + Pad(n) == Pad(n);
  }

  lemma YearReads(y: nat)
    requires y <= 9999
    ensures Number(Year(y)) == Some(y)
  {
    hide Pad, Number;
    PadReads(y / 100);
    TwoDigits(Pad(y / 100), y % 100);
  }

  /** Both bounds have four-digit years unless today's is the first or the last of them. */
  lemma WeekYears(today: Date)
    requires Showable(today) && 1000 < today.y < 9999
    ensures FourDigits(ThisWeek(today).from) && FourDigits(ThisWeek(today).to)
  {
    hide DayOf, ThisWeek, MonthLength;
    WeekIs(today);
    var w := ThisWeek(today);
    FarYears(w.from, today);
    FarYears(today, w.to);
    DayOrder(today, w.from);
    DayOrder(w.to, today);
  }

  /** Days less than a week apart are at most one year apart. */
  lemma FarYears(a: Date, b: Date)
    requires Valid(a) && Valid(b) && DayOf(b) - DayOf(a) < 7
    ensures b.y <= a.y + 1
  {
    hide MonthLength, YearLength, YearStart, MonthStart;
    MonthSum(a.y, a.m);
    if b.y > a.y + 1 {
      YearsGrow(a.y, a.y + 1);
      YearsGrow(a.y + 1, b.y);
      LongYear(a.y + 1);
    }
  }

  // ---- a period named in a question ----

  const DAY_NS := 86400 * 1000000000

  /** What parseAsOf has read: an instant, a day, a month of a year, or a bare number. */
  datatype AsOf = Instant(ns: int) | OnDay(day: Date) | InMonth(y: nat, m: nat) | Bare(month: nat)

  /** Midnight of a day on the shop's clock, in nanoseconds from day zero. */
  function Midnight(n: int): int { n * DAY_NS }

  function FirstOfNext(y: nat, m: nat): Date { if m == 12 then Date(y + 1, 1, 1) else Date(y, m + 1, 1) }

  /** The year a bare month belongs to. */
  function BareYear(month: nat, now: Date): int { if month > now.m then now.y - 1 else now.y }

  /** The last nanosecond of the named period; None is the error. */
  function ParseAsOf(p: AsOf, now: Date): Option<int> {
    match p
    case Instant(ns) => Some(ns)
    case OnDay(day) => if Valid(day) then Some(Midnight(DayOf(day) + 1) - 1) else None
    case InMonth(y, m) => if 1 <= m <= 12 then Some(Midnight(DayOf(FirstOfNext(y, m))) - 1) else None
    case Bare(month) =>
      if 1 <= month <= 12 && BareYear(month, now) >= 0 then
        Some(Midnight(DayOf(FirstOfNext(BareYear(month, now), month))) - 1)
      else None
  }

  /** A bare month is its latest occurrence that has started: it starts on or before today,
      the next one starts after today, and the answer is the last instant of its last day. */
  lemma BareMonthIsTheLatest(month: nat, now: Date)
    requires Valid(now) && now.y >= 1 && 1 <= month <= 12
    ensures var y := BareYear(month, now);
      && y >= 0 && Valid(Date(y, month, MonthLength(y, month)))
      && DayOf(Date(y, month, 1)) <= DayOf(now) < DayOf(Date(y + 1, month, 1))
      && ParseAsOf(Bare(month), now) == Some(Midnight(DayOf(Date(y, month, MonthLength(y, month))) + 1) - 1)
  {
    hide MonthLength, YearLength, DayOf, YearStart, MonthStart;
    var y := BareYear(month, now);
    MonthLong(y, month);
    MonthLong(y + 1, month);
    DayOrder(Date(y, month, 1), now);
    DayOrder(now, Date(y + 1, month, 1));
    NextMonthJoins(y, month);
  }

  lemma NextMonthJoins(y: nat, m: nat)
    requires 1 <= m <= 12
    ensures DayOf(FirstOfNext(y, m)) == DayOf(Date(y, m, MonthLength(y, m))) + 1
  {
    hide MonthLength, YearLength;
    MonthSum(y, m);
  }

  /** An instant is itself; a day, a month and a bare month are answered exactly when they are
      in the calendar. */
  lemma PeriodAnswered(p: AsOf, now: Date)
    requires Valid(now)
    ensures p.Instant? ==> ParseAsOf(p, now) == Some(p.ns)
    ensures p.OnDay? ==> (ParseAsOf(p, now).Some? <==> Valid(p.day))
    ensures p.InMonth? ==> (ParseAsOf(p, now).Some? <==> p.m in {1, 2, 3, 4, 5, 6, 7, 8, 9, 10, 11, 12})
    ensures p.Bare? ==> (ParseAsOf(p, now).Some? <==> 1 <= p.month <= 12 && (p.month <= now.m || now.y > 0))
  {
    hide MonthLength, DayOf;
  }

  /** Instants of a named day or month end with it: everything on its days is at or before
      the answer, and midnight of the next day is after it. */
  lemma PeriodEnds(p: AsOf, now: Date, t: Date, into: nat)
    requires Valid(t) && into < DAY_NS && (p.OnDay? || p.InMonth?) && ParseAsOf(p, now).Some?
    ensures var end := ParseAsOf(p, now).value; var at := Midnight(DayOf(t)) + into;
      p.OnDay? ==> (at <= end <==> DayOf(t) <= DayOf(p.day))
    ensures var end := ParseAsOf(p, now).value; var at := Midnight(DayOf(t)) + into;
      p.InMonth? ==> (at <= end <==> t.y < p.y || (t.y == p.y && t.m <= p.m))
  {
    hide MonthLength, YearLength, DayOf, YearStart, MonthStart;
    if p.InMonth? {
      var next := FirstOfNext(p.y, p.m);
      MonthLong(next.y, next.m);
      DayOrder(t, next);
    }
  }
}
