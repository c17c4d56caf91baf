/** The month calendar of the schedule pages (pages/schedule/ScheduleCalendar.tsx)
    over the proleptic Gregorian calendar: the Sunday-to-Saturday padded grid
    of a month, the per-day lookup by ISO 8601 calendar date `YYYY-MM-DD`,
    month navigation and the three-item cell preview. Months are 1 to 12
    (`getMonth() + 1`); weekdays are 0 (Sunday) to 6 (Saturday), as `getDay()`. */
module Calendar {
  import opened Seqs
  import opened Text
  import opened Types
  import opened Arith

  datatype Date = Date(year: int, month: int, day: int)

  predicate IsLeapYear(y: int)
  {
    y % 4 == 0 && (y % 100 != 0 || y % 400 == 0)
  }

  /** The day `new Date(y, m, 0)` stands for: the length of month `m`. */
  function DaysInMonth(y: int, m: int): (n: int)
    requires 1 <= m <= 12
    ensures 28 <= n <= 31
    ensures m == 2 ==> n == (if IsLeapYear(y) then 29 else 28)
  {
    if m == 2 then (if IsLeapYear(y) then 29 else 28)
    else if m == 4 || m == 6 || m == 9 || m == 11 then 30
    else 31
  }

  predicate ValidDate(d: Date)
  {
    1 <= d.month <= 12 && 1 <= d.day <= DaysInMonth(d.year, d.month)
  }

  function YearLength(y: int): int
  {
    if IsLeapYear(y) then 366 else 365
  }

  /** Days from 1 January 0001 to 1 January of year `y`. */
  function DaysBeforeYear(y: int): int
  {
    365 * (y - 1) + (y - 1) / 4 - (y - 1) / 100 + (y - 1) / 400
  }

  /** Days from 1 January to the first of month `m`. */
  function DaysBeforeMonth(y: int, m: int): int
    requires 1 <= m <= 12
  {
    if m == 1 then 0 else DaysBeforeMonth(y, m - 1) + DaysInMonth(y, m - 1)
  }

  /** Days since 1 January 0001 (day 0, a Monday). */
  function DayNumber(d: Date): int
    requires 1 <= d.month <= 12
  {
    DaysBeforeYear(d.year) + DaysBeforeMonth(d.year, d.month) + d.day - 1
  }

  /** `getDay()`: 0 for Sunday through 6 for Saturday. */
  function Weekday(d: Date): (w: int)
    requires 1 <= d.month <= 12
    ensures 0 <= w < 7
  {
    (DayNumber(d) + 1) % 7
  }

  /** The day after `d`: `setDate(getDate() + 1)`. */
  function NextDay(d: Date): Date
    requires ValidDate(d)
  {
    if d.day < DaysInMonth(d.year, d.month) then Date(d.year, d.month, d.day + 1)
    else if d.month < 12 then Date(d.year, d.month + 1, 1)
    else Date(d.year + 1, 1, 1)
  }

  /** The day before `d`: `setDate(getDate() - 1)`. */
  function PrevDay(d: Date): Date
    requires ValidDate(d)
  {
    if d.day > 1 then Date(d.year, d.month, d.day - 1)
    else if d.month > 1 then Date(d.year, d.month - 1, DaysInMonth(d.year, d.month - 1))
    else Date(d.year - 1, 12, 31)
  }

  lemma YearLengthStep(y: int)
    ensures DaysBeforeYear(y + 1) == DaysBeforeYear(y) + YearLength(y)
  {
    DivStep(y - 1, 4);
    DivStep(y - 1, 100);
    DivStep(y - 1, 400);
    if y % 400 == 0 { MultipleOfMultiple(y, 100, 4); }
    if y % 100 == 0 { MultipleOfMultiple(y, 4, 25); }
  }

  lemma DaysBeforeDecember(y: int)
    ensures DaysBeforeMonth(y, 12) + 31 == YearLength(y)
  {
    var f := DaysInMonth(y, 2);
    assert DaysBeforeMonth(y, 2) == 31;
    assert DaysBeforeMonth(y, 3) == 31 + f;
    assert DaysBeforeMonth(y, 4) == 62 + f;
    assert DaysBeforeMonth(y, 5) == 92 + f;
    assert DaysBeforeMonth(y, 6) == 123 + f;
    assert DaysBeforeMonth(y, 7) == 153 + f;
    assert DaysBeforeMonth(y, 8) == 184 + f;
    assert DaysBeforeMonth(y, 9) == 215 + f;
    assert DaysBeforeMonth(y, 10) == 245 + f;
    assert DaysBeforeMonth(y, 11) == 276 + f;
    assert DaysBeforeMonth(y, 12) == 306 + f;
  }

  /** The next day is a valid date one day number later, and the day before it is `d`. */
  lemma NextDaySpec(d: Date)
    requires ValidDate(d)
    ensures ValidDate(NextDay(d)) && DayNumber(NextDay(d)) == DayNumber(d) + 1
    ensures PrevDay(NextDay(d)) == d
  {
    if d.day == DaysInMonth(d.year, d.month) && d.month == 12 {
      YearLengthStep(d.year);
      DaysBeforeDecember(d.year);
    }
  }

  /** The previous day is a valid date one day number earlier, and the day after it is `d`. */
  lemma PrevDaySpec(d: Date)
    requires ValidDate(d)
    ensures ValidDate(PrevDay(d)) && DayNumber(PrevDay(d)) == DayNumber(d) - 1
    ensures NextDay(PrevDay(d)) == d
  {
    if d.day == 1 && d.month == 1 {
      YearLengthStep(d.year - 1);
      DaysBeforeDecember(d.year - 1);
    }
  }

  /** `n` days after `d`, one `setDate(getDate() + 1)` at a time. */
  function StepForward(d: Date, n: nat): (r: Date)
    requires ValidDate(d)
    ensures ValidDate(r)
    decreases n
  {
    if n == 0 then d
    else
      var before := StepForward(d, n - 1);
      NextDaySpec(before);
      NextDay(before)
  }

  /** `n` days before `d`. */
  function StepBack(d: Date, n: nat): (r: Date)
    requires ValidDate(d)
    ensures ValidDate(r)
    decreases n
  {
    if n == 0 then d
    else
      var after := StepBack(d, n - 1);
      PrevDaySpec(after);
      PrevDay(after)
  }

  /** Stepping `n` days forward adds `n` to the day number. */
  lemma {:induction false} StepForwardNumber(d: Date, n: nat)
    requires ValidDate(d)
    ensures DayNumber(StepForward(d, n)) == DayNumber(d) + n
    decreases n
  {
    if n > 0 {
      StepForwardNumber(d, n - 1);
      NextDaySpec(StepForward(d, n - 1));
    }
  }

  /** Stepping `n` days back subtracts `n` from the day number. */
  lemma {:induction false} StepBackNumber(d: Date, n: nat)
    requires ValidDate(d)
    ensures DayNumber(StepBack(d, n)) == DayNumber(d) - n
    decreases n
  {
    if n > 0 {
      StepBackNumber(d, n - 1);
      PrevDaySpec(StepBack(d, n - 1));
    }
  }

  lemma {:induction false} StepForwardAdd(d: Date, a: nat, b: nat)
    requires ValidDate(d)
    ensures StepForward(StepForward(d, a), b) == StepForward(d, a + b)
    decreases b
  {
    if b > 0 {
      StepForwardAdd(d, a, b - 1);
    }
  }

  lemma {:induction false} StepForwardBack(d: Date, n: nat, i: nat)
    requires ValidDate(d) && i <= n
    ensures StepForward(StepBack(d, n), i) == StepBack(d, n - i)
    decreases i
  {
    if i > 0 {
      StepForwardBack(d, n, i - 1);
      var x := StepBack(d, n - i);
      assert StepBack(d, n - i + 1) == PrevDay(x);
      PrevDaySpec(x);
    }
  }

  /** Within a month, stepping from the first lands on the expected day. */
  lemma {:induction false} StepInMonth(y: int, m: int, k: nat)
    requires 1 <= m <= 12 && k < DaysInMonth(y, m)
    ensures StepForward(Date(y, m, 1), k) == Date(y, m, k + 1)
    decreases k
  {
    if k > 0 { StepInMonth(y, m, k - 1); }
  }

  /** Up to six days before the first are the last days of the previous month. */
  lemma {:induction false} StepBeforeMonth(y: int, m: int, j: nat)
    requires 1 <= m <= 12 && 1 <= j <= 6
    ensures var p := MonthBefore(y, m);
      StepBack(Date(y, m, 1), j) == Date(p.year, p.month, DaysInMonth(p.year, p.month) - j + 1)
    decreases j
  {
    if j > 1 { StepBeforeMonth(y, m, j - 1); }
  }

  /** Up to six days after the last day are the first days of the next month. */
  lemma {:induction false} StepAfterMonth(y: int, m: int, j: nat)
    requires 1 <= m <= 12 && 1 <= j <= 6
    ensures var q := MonthAfter(y, m);
      StepForward(Date(y, m, DaysInMonth(y, m)), j) == Date(q.year, q.month, j)
    decreases j
  {
    if j > 1 { StepAfterMonth(y, m, j - 1); }
  }

  /** `new Date(year, month - 1, 1)`: the first of the previous month, across a year boundary. */
  function MonthBefore(y: int, m: int): (r: Date)
    requires 1 <= m <= 12
    ensures ValidDate(r) && r.day == 1 && r.month != m
    ensures m == 1 ==> r.year == y - 1 && r.month == 12
    ensures m > 1 ==> r.year == y && r.month == m - 1
  {
    if m == 1 then Date(y - 1, 12, 1) else Date(y, m - 1, 1)
  }

  /** `new Date(year, month + 1, 1)`: the first of the next month, across a year boundary. */
  function MonthAfter(y: int, m: int): (r: Date)
    requires 1 <= m <= 12
    ensures ValidDate(r) && r.day == 1 && r.month != m
    ensures m == 12 ==> r.year == y + 1 && r.month == 1
    ensures m < 12 ==> r.year == y && r.month == m + 1
  {
    if m == 12 then Date(y + 1, 1, 1) else Date(y, m + 1, 1)
  }

  /** The months counted from year 0: navigation moves it by exactly one. */
  function MonthIndex(d: Date): int
  {
    12 * d.year + d.month - 1
  }

  /** Going back a month then forward a month (or the other way) returns to
      the first of the month, and each step moves the month count by one. */
  lemma MonthNavigation(y: int, m: int)
    requires 1 <= m <= 12
    ensures MonthIndex(MonthBefore(y, m)) == MonthIndex(Date(y, m, 1)) - 1
    ensures MonthIndex(MonthAfter(y, m)) == MonthIndex(Date(y, m, 1)) + 1
    ensures var p := MonthBefore(y, m); MonthAfter(p.year, p.month) == Date(y, m, 1)
    ensures var q := MonthAfter(y, m); MonthBefore(q.year, q.month) == Date(y, m, 1)
  {
  }

  /** `isCurrentMonth`: compares the month number only, not the year. */
  predicate IsCurrentMonth(d: Date, month: int)
  {
    d.month == month
  }

  /** The month grid as the page draws it: the Sunday on or before the first
      through the Saturday on or after the last day, one day per cell. Its
      length is a multiple of 7 between 28 and 42; the month's days appear once
      each, in order, after `Weekday(first)` leading cells and before
      `6 - Weekday(last)` trailing ones; and only the padding cells fail
      `isCurrentMonth`. */
  predicate IsMonthGrid(year: int, month: int, days: seq<Date>)
    requires 1 <= month <= 12
  {
    var dim := DaysInMonth(year, month);
    var w1 := Weekday(Date(year, month, 1));
    |days| == w1 + dim + (6 - Weekday(Date(year, month, dim)))
    && |days| % 7 == 0 && 28 <= |days| <= 42
    && (forall i :: 0 <= i < |days| ==> ValidDate(days[i]) && Weekday(days[i]) == i % 7)
    && (forall i :: 0 <= i < |days| - 1 ==> ValidDate(days[i]) && days[i + 1] == NextDay(days[i]))
    && (forall i :: w1 <= i < w1 + dim ==> i < |days| && days[i] == Date(year, month, i - w1 + 1))
    && (forall i :: 0 <= i < |days| ==> (IsCurrentMonth(days[i], month) <==> w1 <= i < w1 + dim))
  }

  /** `MonthGrid`'s loop leaves cell `i` as `i` days after the Sunday on or
      before the first, and stops after the Saturday on or after the last day. */
  predicate GridBuilt(year: int, month: int, days: seq<Date>)
    requires 1 <= month <= 12
  {
    var first := Date(year, month, 1);
    var last := Date(year, month, DaysInMonth(year, month));
    var start := StepBack(first, Weekday(first));
    (forall i {:trigger days[i]} :: 0 <= i < |days| ==> days[i] == StepForward(start, i))
    && DayNumber(StepForward(start, |days|)) == DayNumber(StepForward(last, 6 - Weekday(last))) + 1
  }

  /** The grid's first day is not after its last. */
  lemma GridBounds(year: int, month: int)
    requires 1 <= month <= 12
    ensures var first := Date(year, month, 1);
      var last := Date(year, month, DaysInMonth(year, month));
      DayNumber(StepBack(first, Weekday(first))) <= DayNumber(StepForward(last, 6 - Weekday(last)))
  {
    var dim := DaysInMonth(year, month);
    var first := Date(year, month, 1);
    var last := Date(year, month, dim);
    StepBackNumber(first, Weekday(first));
    StepForwardNumber(last, 6 - Weekday(last));
    StepInMonth(year, month, dim - 1);
    StepForwardNumber(first, dim - 1);
  }

  /** The `n` consecutive days from `start`. */
  function Cells(start: Date, n: nat): (r: seq<Date>)
    requires ValidDate(start)
    ensures |r| == n
  {
    seq(n, i requires 0 <= i < n => StepForward(start, i))
  }

  lemma CellsGrow(start: Date, n: nat)
    requires ValidDate(start)
    ensures Cells(start, n + 1) == Cells(start, n) + [StepForward(start, n)]
  {
  }

  lemma CellsAt(start: Date, n: nat)
    requires ValidDate(start)
    ensures forall i {:trigger Cells(start, n)[i]} :: 0 <= i < n ==> Cells(start, n)[i] == StepForward(start, i)
  {
  }

  /** The month grid: the `while (current <= endDate)` loop pushing one day at a time. */
  method MonthGrid(year: int, month: int) returns (days: seq<Date>)
    requires 1 <= month <= 12
    ensures IsMonthGrid(year, month, days)
  {
    var dim := DaysInMonth(year, month);
    var first := Date(year, month, 1);
    var last := Date(year, month, dim);
    var start := StepBack(first, Weekday(first));
    var end := StepForward(last, 6 - Weekday(last));
    GridBounds(year, month);
    days := [];
    var current := start;
    while DayNumber(current) <= DayNumber(end)
      invariant ValidDate(current) && current == StepForward(start, |days|)
      invariant DayNumber(current) <= DayNumber(end) + 1
      invariant days == Cells(start, |days|)
      decreases DayNumber(end) - DayNumber(current)
    {
      CellsGrow(start, |days|);
      days := days + [current];
      NextDaySpec(current);
      current := NextDay(current);
    }
    CellsAt(start, |days|);
    GridFacts(year, month, days);
  }

  lemma GridFacts(year: int, month: int, days: seq<Date>)
    requires 1 <= month <= 12 && GridBuilt(year, month, days)
    ensures IsMonthGrid(year, month, days)
  {
    GridLength(year, month, days);
    GridWeekdays(year, month, days);
    GridMonthDays(year, month, days);
    GridPadding(year, month, days);
    var start := StepBack(Date(year, month, 1), Weekday(Date(year, month, 1)));
    forall i | 0 <= i < |days| - 1 ensures ValidDate(days[i]) && days[i + 1] == NextDay(days[i]) {
      assert days[i + 1] == StepForward(start, i + 1);
    }
  }

  lemma GridLength(year: int, month: int, days: seq<Date>)
    requires 1 <= month <= 12 && GridBuilt(year, month, days)
    ensures var w1 := Weekday(Date(year, month, 1));
      var dim := DaysInMonth(year, month);
      |days| == w1 + dim + (6 - Weekday(Date(year, month, dim)))
      && |days| % 7 == 0 && 28 <= |days| <= 42
  {
    var dim := DaysInMonth(year, month);
    var first := Date(year, month, 1);
    var w1 := Weekday(first);
    var wl := Weekday(Date(year, month, dim));
    GridCount(year, month, |days|);
    LastWeekday(year, month);
    GridArithmetic(w1, dim, wl);
  }

  /** The loop that stops one day past the grid's last cell has pushed
      `w1 + dim + 6 - wl` cells. */
  lemma GridCount(year: int, month: int, n: nat)
    requires 1 <= month <= 12
    requires var first := Date(year, month, 1);
      var last := Date(year, month, DaysInMonth(year, month));
      DayNumber(StepForward(StepBack(first, Weekday(first)), n)) == DayNumber(StepForward(last, 6 - Weekday(last))) + 1
    ensures var dim := DaysInMonth(year, month);
      n == Weekday(Date(year, month, 1)) + dim + (6 - Weekday(Date(year, month, dim)))
  {
    var first := Date(year, month, 1);
    GridSpan(year, month);
    StepForwardNumber(StepBack(first, Weekday(first)), n);
  }

  /** The last day of a month falls `dim - 1` weekdays on from the first. */
  lemma LastWeekday(year: int, month: int)
    requires 1 <= month <= 12
    ensures var dim := DaysInMonth(year, month);
      var first := Date(year, month, 1);
      var last := Date(year, month, dim);
      DayNumber(last) == DayNumber(first) + dim - 1
      && Weekday(last) == (Weekday(first) + dim - 1) % 7
  {
    var first := Date(year, month, 1);
    WeekdayShift(DayNumber(first) + 1, DaysInMonth(year, month) - 1);
  }

  /** From the Sunday on or before the first to the Saturday on or after the
      last day there are `w1 + dim + 6 - wl` days. */
  lemma GridSpan(year: int, month: int)
    requires 1 <= month <= 12
    ensures var dim := DaysInMonth(year, month);
      var first := Date(year, month, 1);
      var last := Date(year, month, dim);
      var w1 := Weekday(first);
      var wl := Weekday(last);
      DayNumber(StepForward(last, 6 - wl)) + 1 - DayNumber(StepBack(first, w1)) == w1 + dim + (6 - wl)
  {
    var dim := DaysInMonth(year, month);
    var first := Date(year, month, 1);
    var last := Date(year, month, dim);
    LastWeekday(year, month);
    StepBackNumber(first, Weekday(first));
    StepForwardNumber(last, 6 - Weekday(last));
  }

  /** The padded length `w1 + dim + 6 - wl` is a whole number of weeks, four to six. */
  lemma GridArithmetic(w1: int, dim: int, wl: int)
    requires 0 <= w1 < 7 && 28 <= dim <= 31 && wl == (w1 + dim - 1) % 7
    ensures var n := w1 + dim + (6 - wl); n % 7 == 0 && 28 <= n <= 42
  {
    var x := w1 + dim - 1;
    var q := x / 7;
    assert x == 7 * q + wl;
    DivModUnique(w1 + dim + (6 - wl), 7, q + 1, 0);
    assert 3 <= q <= 5 by {
      if q < 3 { MulMonotone(q, 2, 7); }
      if q > 5 { MulMonotone(6, q, 7); }
    }
  }

  lemma GridWeekdays(year: int, month: int, days: seq<Date>)
    requires 1 <= month <= 12 && GridBuilt(year, month, days)
    ensures forall i :: 0 <= i < |days| ==> ValidDate(days[i]) && Weekday(days[i]) == i % 7
  {
    var first := Date(year, month, 1);
    var start := StepBack(first, Weekday(first));
    GridStartsOnSunday(year, month);
    forall i | 0 <= i < |days| ensures ValidDate(days[i]) && Weekday(days[i]) == i % 7 {
      assert days[i] == StepForward(start, i);
      WeekdayAfter(start, i);
    }
  }

  /** The grid's first cell is a Sunday. */
  lemma GridStartsOnSunday(year: int, month: int)
    requires 1 <= month <= 12
    ensures var first := Date(year, month, 1);
      Weekday(StepBack(first, Weekday(first))) == 0
  {
    var first := Date(year, month, 1);
    WeekdayBefore(first, Weekday(first));
  }

  lemma GridMonthDays(year: int, month: int, days: seq<Date>)
    requires 1 <= month <= 12 && GridBuilt(year, month, days)
    ensures var w1 := Weekday(Date(year, month, 1));
      forall i :: w1 <= i < w1 + DaysInMonth(year, month) ==> i < |days| && days[i] == Date(year, month, i - w1 + 1)
  {
    var w1 := Weekday(Date(year, month, 1));
    GridLength(year, month, days);
    forall i | w1 <= i < w1 + DaysInMonth(year, month)
      ensures i < |days| && days[i] == Date(year, month, i - w1 + 1)
    {
      CellOfMonth(year, month, i - w1);
    }
  }

  lemma GridPadding(year: int, month: int, days: seq<Date>)
    requires 1 <= month <= 12 && GridBuilt(year, month, days)
    ensures var w1 := Weekday(Date(year, month, 1));
      forall i :: 0 <= i < |days| ==> (IsCurrentMonth(days[i], month) <==> w1 <= i < w1 + DaysInMonth(year, month))
  {
    var first := Date(year, month, 1);
    var start := StepBack(first, Weekday(first));
    GridLength(year, month, days);
    forall i | 0 <= i < |days|
      ensures IsCurrentMonth(days[i], month) <==> Weekday(first) <= i < Weekday(first) + DaysInMonth(year, month)
    {
      assert days[i] == StepForward(start, i);
      CellInMonth(year, month, i);
    }
  }

  /** Cell `i` of the grid is in the month exactly when it is one of the
      `dim` cells after the `w1` leading ones. */
  lemma CellInMonth(year: int, month: int, i: nat)
    requires 1 <= month <= 12
    requires var dim := DaysInMonth(year, month);
      i < Weekday(Date(year, month, 1)) + dim + (6 - Weekday(Date(year, month, dim)))
    ensures var first := Date(year, month, 1);
      var w1 := Weekday(first);
      IsCurrentMonth(StepForward(StepBack(first, w1), i), month) <==> w1 <= i < w1 + DaysInMonth(year, month)
  {
    var dim := DaysInMonth(year, month);
    var w1 := Weekday(Date(year, month, 1));
    var wl := Weekday(Date(year, month, dim));
    if i < w1 {
      CellBeforeMonth(year, month, i);
    } else if i >= w1 + dim {
      assert i - (w1 + dim - 1) <= 6 - wl;
      CellAfterMonth(year, month, i);
    } else {
      CellOfMonth(year, month, i - w1);
    }
  }

  /** Cell `w1 + k` of the grid is day `k + 1` of the month. */
  lemma CellOfMonth(year: int, month: int, k: nat)
    requires 1 <= month <= 12 && k < DaysInMonth(year, month)
    ensures var first := Date(year, month, 1);
      var w1 := Weekday(first);
      StepForward(StepBack(first, w1), w1 + k) == Date(year, month, k + 1)
  {
    var first := Date(year, month, 1);
    var w1 := Weekday(first);
    var start := StepBack(first, w1);
    StepForwardBack(first, w1, w1);
    StepForwardAdd(start, w1, k);
    StepInMonth(year, month, k);
  }

  /** A leading cell lies in the previous month. */
  lemma CellBeforeMonth(year: int, month: int, i: nat)
    requires 1 <= month <= 12 && i < Weekday(Date(year, month, 1))
    ensures var first := Date(year, month, 1);
      StepForward(StepBack(first, Weekday(first)), i).month == MonthBefore(year, month).month
  {
    var first := Date(year, month, 1);
    var w1 := Weekday(first);
    StepForwardBack(first, w1, i);
    StepBeforeMonth(year, month, w1 - i);
  }

  /** A trailing cell lies in the next month. */
  lemma CellAfterMonth(year: int, month: int, i: nat)
    requires 1 <= month <= 12
    requires var dim := DaysInMonth(year, month);
      var w1 := Weekday(Date(year, month, 1));
      w1 + dim <= i <= w1 + dim + 5
    ensures var first := Date(year, month, 1);
      StepForward(StepBack(first, Weekday(first)), i).month == MonthAfter(year, month).month
  {
    var dim := DaysInMonth(year, month);
    var first := Date(year, month, 1);
    var w1 := Weekday(first);
    var j := i - (w1 + dim - 1);
    CellPastLast(year, month, j);
    StepAfterMonth(year, month, j);
  }

  /** Cell `w1 + dim - 1 + j` of the grid is `j` days after the month's last day. */
  lemma CellPastLast(year: int, month: int, j: nat)
    requires 1 <= month <= 12
    ensures var dim := DaysInMonth(year, month);
      var first := Date(year, month, 1);
      var w1 := Weekday(first);
      StepForward(StepBack(first, w1), w1 + dim - 1 + j) == StepForward(Date(year, month, dim), j)
  {
    var dim := DaysInMonth(year, month);
    var first := Date(year, month, 1);
    var w1 := Weekday(first);
    var start := StepBack(first, w1);
    CellOfMonth(year, month, dim - 1);
    StepForwardAdd(start, w1 + dim - 1, j);
  }

  lemma WeekdayShift(a: int, k: int)
    ensures (a + k) % 7 == (a % 7 + k) % 7
  {
    DivModUnique(a + k, 7, a / 7 + (a % 7 + k) / 7, (a % 7 + k) % 7);
  }

  /** Each day forward moves the weekday on by one, modulo 7. */
  lemma WeekdayAfter(d: Date, n: nat)
    requires ValidDate(d)
    ensures Weekday(StepForward(d, n)) == (Weekday(d) + n) % 7
  {
    var a := DayNumber(d) + 1;
    StepForwardNumber(d, n);
    WeekdayShift(a, n);
  }

  /** Each day back moves the weekday back by one, modulo 7. */
  lemma WeekdayBefore(d: Date, n: nat)
    requires ValidDate(d)
    ensures Weekday(StepBack(d, n)) == (Weekday(d) - n) % 7
  {
    var a := DayNumber(d) + 1;
    StepBackNumber(d, n);
    WeekdayShift(a, 0 - (n as int));
  }

  /** 1 January 2025 was a Wednesday. */
  lemma WeekdayExample()
    ensures Weekday(Date(2025, 1, 1)) == 3
  {
  }

  /** `${year}-${pad2(month)}-${pad2(day)}`: the ISO 8601 calendar date of a cell. */
  function DateKey(d: Date): string
  {
    IntToString(d.year) + "-" + Pad2(if d.month < 0 then 0 else d.month) + "-" + Pad2(if d.day < 0 then 0 else d.day)
  }

  /** The test of the per-day filter: the appointment is dated `key`. */
  function DatedOn(key: string): Schedule -> bool
  {
    (s: Schedule) => s.scheduleDate == key
  }

  /** `getSchedulesForDate`: the appointments dated that cell's day, in input
      order; no sort by time. */
  function SchedulesForDate(schedules: seq<Schedule>, d: Date): seq<Schedule>
  {
    Filter(DatedOn(DateKey(d)), schedules)
  }

  /** A cell lists exactly the appointments carrying its date, in input order. */
  lemma SchedulesForDateSpec(schedules: seq<Schedule>, d: Date)
    ensures var r := SchedulesForDate(schedules, d);
      (forall i :: 0 <= i < |r| ==> r[i].scheduleDate == DateKey(d) && r[i] in schedules)
      && (forall i :: 0 <= i < |schedules| && schedules[i].scheduleDate == DateKey(d) ==> schedules[i] in r)
      && IsSubsequence(r, schedules)
  {
    FilterIsSubsequence(DatedOn(DateKey(d)), schedules);
  }

  /** What a calendar cell shows: at most three appointments and, when there
      are more, the `+k` count of the rest. */
  datatype CellPreview = CellPreview(shown: seq<Schedule>, more: Option<int>)

  function Preview(daySchedules: seq<Schedule>): CellPreview
  {
    CellPreview(
      daySchedules[..if |daySchedules| < 3 then |daySchedules| else 3],
      if |daySchedules| > 3 then Some(|daySchedules| - 3) else None)
  }

  /** The shown items are the first ones, at most three; `+k` appears only
      beyond three, and shown plus `k` accounts for every appointment. */
  lemma PreviewSpec(daySchedules: seq<Schedule>)
    ensures var p := Preview(daySchedules);
      |p.shown| <= 3 && p.shown <= daySchedules
      && (p.more.Some? <==> |daySchedules| > 3)
      && (p.more.Some? ==> p.more.value >= 1 && |p.shown| + p.more.value == |daySchedules|)
      && (p.more.None? ==> p.shown == daySchedules)
  {
  }
}
