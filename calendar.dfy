/** The month grid and the per-day task lookup of the calendar view
    (App.tsx, "Calendar utility functions"). Dates are proleptic Gregorian;
    months count from 0 as JavaScript's `Date` does. */
module Calendar {
  import opened Wrappers
  import opened Domain

  /** A local calendar date, as `new Date(year, month, day)` denotes it. */
  datatype CalendarDate = CalendarDate(year: int, month: int, day: int)

  predicate IsLeapYear(year: int) {
    year % 4 == 0 && (year % 100 != 0 || year % 400 == 0)
  }

  /** `new Date(year, month + 1, 0).getDate()`: the last day of the month. */
  function DaysInMonth(year: int, month: int): (n: int)
    requires 0 <= month < 12
    ensures 28 <= n <= 31
    ensures n == 29 <==> month == 1 && IsLeapYear(year)
  {
    if month == 1 then (if IsLeapYear(year) then 29 else 28)
    else if month == 3 || month == 5 || month == 8 || month == 10 then 30
    else 31
  }

  predicate ValidDate(d: CalendarDate) {
    0 <= d.month < 12 && 1 <= d.day <= DaysInMonth(d.year, d.month)
  }

  /** Days from 1 January 1970 to the given date. Years are counted from
      1 March, so that the leap day is the last day of its year. */
  function DayNumber(year: int, month: int, day: int): int
    requires 0 <= month < 12
  {
    var y := if month < 2 then year - 1 else year;
    var m := if month < 2 then month + 10 else month - 2;
    365 * y + y / 4 - y / 100 + y / 400 + (153 * m + 2) / 5 + day - 1 - 719468
  }

  /** `getDay()`: 0 is Sunday; 1 January 1970 was a Thursday. */
  function Weekday(dayNumber: int): (w: int)
    ensures 0 <= w < 7
  {
    (dayNumber + 4) % 7
  }

  /** Consecutive days of a month have consecutive day numbers. */
  lemma DayNumberStep(year: int, month: int, day: int)
    requires 0 <= month < 12
    ensures DayNumber(year, month, day) == DayNumber(year, month, 1) + day - 1
  {
  }

  /** The year from 1 March of `y` to the last day of February of `y + 1`
      has 366 days exactly when `y + 1` is a leap year. */
  lemma {:induction false} ShiftedYearLength(y: int)
    ensures (365 * (y + 1) + (y + 1) / 4 - (y + 1) / 100 + (y + 1) / 400) -
            (365 * y + y / 4 - y / 100 + y / 400) == if IsLeapYear(y + 1) then 366 else 365
  {
    FloorStep(y, 4);
    FloorStep(y, 100);
    FloorStep(y, 400);
  }

  lemma FloorStep(y: int, k: int)
    requires k == 4 || k == 100 || k == 400
    ensures (y + 1) / k - y / k == if (y + 1) % k == 0 then 1 else 0
  {
  }

  /** `new Date(year, month + 1, 0)` is the day before the first of the next
      month, so `DaysInMonth` is the distance between two month starts. */
  lemma LastDayOfMonth(year: int, month: int)
    requires 0 <= month < 12
    ensures var next := if month == 11 then DayNumber(year + 1, 0, 1) else DayNumber(year, month + 1, 1);
      next - DayNumber(year, month, 1) == DaysInMonth(year, month)
  {
    if month == 1 {
      ShiftedYearLength(year - 1);
    }
  }

  /** The cells `getDaysInMonth` produces: one empty cell per weekday before
      the first of the month, then every day of the month in order. */
  function MonthGrid(year: int, month: int): (cells: seq<Option<CalendarDate>>)
    requires 0 <= month < 12
  {
    var start := Weekday(DayNumber(year, month, 1));
    seq(start, _ => None) + seq(DaysInMonth(year, month), d => Some(CalendarDate(year, month, d + 1)))
  }

  /** `getDaysInMonth`: the two `for` loops pushing into `days`. */
  method GetDaysInMonth(date: CalendarDate) returns (days: seq<Option<CalendarDate>>)
    requires ValidDate(date)
    ensures days == MonthGrid(date.year, date.month)
  {
    var year := date.year;
    var month := date.month;
    var daysInMonth := DaysInMonth(year, month);
    var startDay := Weekday(DayNumber(year, month, 1));
    days := [];
    var i := 0;
    while i < startDay
      invariant 0 <= i <= startDay
      invariant days == seq(i, _ => None)
    {
      days := days + [None];
      i := i + 1;
    }
    var day := 1;
    while day <= daysInMonth
      invariant 1 <= day <= daysInMonth + 1
      invariant days == seq(startDay, _ => None) +
                        seq(day - 1, d => Some(CalendarDate(year, month, d + 1)))
    {
      days := days + [Some(CalendarDate(year, month, day))];
      day := day + 1;
    }
  }

  /** The grid has one cell per day plus at most six leading blanks: between
      28 and 37 cells. */
  lemma GridSize(year: int, month: int)
    requires 0 <= month < 12
    ensures 28 <= |MonthGrid(year, month)| <= 37
    ensures |MonthGrid(year, month)| == Weekday(DayNumber(year, month, 1)) + DaysInMonth(year, month)
  {
  }

  /** Every cell of the seven-column grid holds a valid date of the month, and
      that date falls on the weekday of its column; blanks only lead. */
  lemma GridColumnsAreWeekdays(year: int, month: int)
    requires 0 <= month < 12
    ensures forall i :: 0 <= i < |MonthGrid(year, month)| && MonthGrid(year, month)[i].Some? ==>
      var c := MonthGrid(year, month)[i].value;
      c.year == year && c.month == month && ValidDate(c) &&
      i % 7 == Weekday(DayNumber(c.year, c.month, c.day))
    ensures forall i :: 0 <= i < |MonthGrid(year, month)| ==>
      (MonthGrid(year, month)[i].None? <==> i < Weekday(DayNumber(year, month, 1)))
  {
    var grid := MonthGrid(year, month);
    var first := DayNumber(year, month, 1);
    var start := Weekday(first);
    forall i | 0 <= i < |grid| && grid[i].Some?
      ensures i % 7 == Weekday(DayNumber(year, month, grid[i].value.day))
    {
      var d := i - start + 1;
      assert grid[i] == Some(CalendarDate(year, month, d));
      DayNumberStep(year, month, d);
      ModShift(first + 4, d - 1);
    }
  }

  lemma ModShift(a: int, b: int)
    ensures (a % 7 + b) % 7 == (a + b) % 7
  {
  }

  /** The UTC day of local midnight of `date`, where the local zone is
      `offsetMs` ahead of UTC: what `date.toISOString().split('T')[0]` names. */
  function IsoDayOfLocalMidnight(date: CalendarDate, offsetMs: int): int
    requires 0 <= date.month < 12
  {
    (DayNumber(date.year, date.month, date.day) * DayMs - offsetMs) / DayMs
  }

  /** `getTasksForDate` as written: the tasks whose due date equals the ISO
      date of the local midnight that starts `date`. */
  function TasksForDate(tasks: seq<Task>, date: CalendarDate, offsetMs: int): (r: seq<Task>)
    requires 0 <= date.month < 12
    ensures forall t :: t in r <==> t in tasks && t.dueDate == Day(IsoDayOfLocalMidnight(date, offsetMs))
  {
    if tasks == [] then []
    else if tasks[0].dueDate == Day(IsoDayOfLocalMidnight(date, offsetMs)) then
      [tasks[0]] + TasksForDate(tasks[1..], date, offsetMs)
    else TasksForDate(tasks[1..], date, offsetMs)
  }

  /** The day's list keeps the stored order of the tasks. */
  lemma {:induction false} TasksForDateAppend(a: seq<Task>, b: seq<Task>, date: CalendarDate, offsetMs: int)
    requires 0 <= date.month < 12
    ensures TasksForDate(a + b, date, offsetMs) == TasksForDate(a, date, offsetMs) + TasksForDate(b, date, offsetMs)
    ensures forall t :: TasksForDate([t], date, offsetMs)
                        == if t.dueDate == Day(IsoDayOfLocalMidnight(date, offsetMs)) then [t] else []
  {
    if a == [] {
      assert a + b == b;
    } else {
      assert (a + b)[1..] == a[1..] + b;
      TasksForDateAppend(a[1..], b, date, offsetMs);
    }
  }



  /** `getTasksForDate` with the lookup keyed on the local calendar day. */
  function TasksForLocalDate(tasks: seq<Task>, date: CalendarDate): (r: seq<Task>)
    requires 0 <= date.month < 12
    ensures forall t :: t in r <==> t in tasks && t.dueDate == Day(DayNumber(date.year, date.month, date.day))
  {
    if tasks == [] then []
    else if tasks[0].dueDate == Day(DayNumber(date.year, date.month, date.day)) then
      [tasks[0]] + TasksForLocalDate(tasks[1..], date)
    else TasksForLocalDate(tasks[1..], date)
  }

  /** The corrected day's list keeps the stored order of the tasks as well. */
  lemma {:induction false} TasksForLocalDateAppend(a: seq<Task>, b: seq<Task>, date: CalendarDate)
    requires 0 <= date.month < 12
    ensures TasksForLocalDate(a + b, date) == TasksForLocalDate(a, date) + TasksForLocalDate(b, date)
    ensures forall t :: TasksForLocalDate([t], date)
                        == if t.dueDate == Day(DayNumber(date.year, date.month, date.day)) then [t] else []
  {
    if a == [] {
      assert a + b == b;
    } else {
      assert (a + b)[1..] == a[1..] + b;
      TasksForLocalDateAppend(a[1..], b, date);
    }
  }



  /** At UTC and west of it (offsets down to -12 hours), local midnight still
      falls on the same UTC day, and the lookup finds the tasks due that day. */
  lemma {:induction false} WestOfUtcFindsTheDay(tasks: seq<Task>, date: CalendarDate, offsetMs: int)
    requires 0 <= date.month < 12
    requires -DayMs < offsetMs <= 0
    ensures TasksForDate(tasks, date, offsetMs) == TasksForLocalDate(tasks, date)
  {
    assert IsoDayOfLocalMidnight(date, offsetMs) == DayNumber(date.year, date.month, date.day);
    if tasks != [] {
      WestOfUtcFindsTheDay(tasks[1..], date, offsetMs);
    }
  }

  /** East of UTC (offsets up to +14 hours) local midnight is still the
      previous day in UTC, so the lookup returns the tasks due the day
      before the cell's date. */
  lemma {:induction false} EastOfUtcFindsThePreviousDay(tasks: seq<Task>, date: CalendarDate, offsetMs: int)
    requires 0 <= date.month < 12
    requires 0 < offsetMs < DayMs
    ensures IsoDayOfLocalMidnight(date, offsetMs) == DayNumber(date.year, date.month, date.day) - 1
    ensures forall t :: t in TasksForDate(tasks, date, offsetMs) <==>
      t in tasks && t.dueDate == Day(DayNumber(date.year, date.month, date.day) - 1)
  {
    var n := DayNumber(date.year, date.month, date.day);
    assert n * DayMs - offsetMs == (n - 1) * DayMs + (DayMs - offsetMs);
  }
}
