/** The API's month window (venue_playlists_api/utils.py): today's month and the months after it,
    reached by moving the date forward one calendar month at a time with `datetime.replace`. */
module ApiUtils {
  import opened Wrappers
  import opened Calendar

  /** The month ordinal of a date: twelve per year, counted from January of year 0. */
  function MonthOrdinal(d: Date): int {
    d.year * 12 + d.month - 1
  }

  /** The date k calendar months after d, keeping the day of the month; it may not exist. */
  function Shift(d: DateTime, k: nat): (r: Date)
    ensures MonthOrdinal(r) == MonthOrdinal(d) + k && 1 <= r.month <= 12 && r.day == d.day
  {
    var ord := MonthOrdinal(d) + k;
    Date(ord / 12, ord % 12 + 1, d.day)
  }

  /** Zero months on is the date itself. */
  lemma ShiftZero(d: DateTime)
    ensures Shift(d, 0) == d
  {
    var s := Shift(d, 0);
    assert s.year * 12 + s.month - 1 == d.year * 12 + d.month - 1;
    assert s.year == d.year;
  }

  /** One month further on is January of the next year after December, else the next month. */
  lemma ShiftStep(d: DateTime, k: nat)
    ensures var s := Shift(d, k);
      Shift(d, k + 1) == if s.month == 12 then Date(s.year + 1, 1, s.day) else Date(s.year, s.month + 1, s.day)
  {
    var s, t := Shift(d, k), Shift(d, k + 1);
    assert t.year * 12 + t.month - 1 == s.year * 12 + s.month;
  }

  /** Each later month of the window has the start day, within year 9999. */
  predicate WindowExists(now: DateTime, n: int) {
    forall i: nat :: 1 <= i < n ==> ValidDate(Shift(now, i))
  }

  /** The i-th entry of the window, "Month_YYYY". */
  function WindowEntry(now: DateTime, i: nat): string {
    var d := Shift(now, i);
    if ValidDate(d) then FormatMonthYear(d) else ""
  }

  /** The window the API promises: num_months consecutive calendar months from today's, each
      written "Month_YYYY"; `None` is the `ValueError` raised when a later month lacks today's day
      of the month or lies past year 9999. */
  function CalendarWindow(now: DateTime, n: int): Option<seq<string>> {
    if WindowExists(now, n) then Some(seq(if n < 0 then 0 else n, i requires 0 <= i => WindowEntry(now, i)))
    else None
  }

  /** `d.replace(year=y, month=m)`: the same day in another month, or a `ValueError` (`None`). */
  function ReplaceYearMonth(d: DateTime, y: int, m: int): (r: Option<DateTime>)
    ensures r.Some? <==> ValidDate(Date(y, m, d.day))
    ensures r.Some? ==> r.value == Date(y, m, d.day)
  {
    if ValidDate(Date(y, m, d.day)) then Some(Date(y, m, d.day)) else None
  }

  /** get_next_months: steps the date one month at a time and collects the month names. */
  method GetNextMonths(now: DateTime, numMonths: int) returns (r: Option<seq<string>>)
    ensures r == CalendarWindow(now, numMonths)
  {
    var months: seq<string> := [];
    var current := now;
    var i := 0;
    while i < numMonths
      invariant 0 <= i && (i <= numMonths || i == 0)
      invariant WindowExists(now, i)
      invariant current == if i == 0 then now else Shift(now, i - 1)
      invariant |months| == i && forall j :: 0 <= j < i ==> months[j] == WindowEntry(now, j)
    {
      if i > 0 {
        var next := Advance(now, i, current);
        if next.None? {
          WindowBroken(now, numMonths, i);
          return None;
        }
        current := next.value;
      } else {
        ShiftZero(now);
      }
      WindowExtend(now, i);
      months := months + [FormatMonthYear(current)];
      i := i + 1;
    }
    WindowOfEntries(now, numMonths, months);
    return Some(months);
  }

  /** One step of the loop: `current.replace(year=..., month=...)` for the next calendar month. */
  method Advance(now: DateTime, i: nat, current: DateTime) returns (next: Option<DateTime>)
    requires i > 0 && current == Shift(now, i - 1)
    ensures next.Some? <==> ValidDate(Shift(now, i))
    ensures next.Some? ==> next.value == Shift(now, i)
  {
    var target := NextMonthSameDay(current);
    NextMonthReplaced(now, i);
    next := ReplaceYearMonth(current, target.year, target.month);
  }

  /** The date one calendar month later with the same day, as the loop computes it. */
  function NextMonthSameDay(d: Date): Date {
    if d.month == 12 then Date(d.year + 1, 1, d.day) else Date(d.year, d.month + 1, d.day)
  }

  /** The same day of the next month of the date k months on is the date k + 1 months on. */
  lemma NextMonthIsShift(now: DateTime, k: nat)
    ensures NextMonthSameDay(Shift(now, k)) == Shift(now, k + 1)
  {
    ShiftStep(now, k);
  }

  /** Moving the date i - 1 months on forward by one more month gives the date i months on, when
      that date exists. */
  lemma NextMonthReplaced(now: DateTime, i: nat)
    requires i > 0 && ValidDate(Shift(now, i - 1))
    ensures var current: DateTime := Shift(now, i - 1);
      var target := NextMonthSameDay(current);
      var next := ReplaceYearMonth(current, target.year, target.month);
      (next.Some? <==> ValidDate(Shift(now, i))) && (next.Some? ==> next.value == Shift(now, i))
  {
    NextMonthIsShift(now, i - 1);
  }

  /** A window that exists up to i extends by one when the date i months on exists, and its entry i names that date. */
  lemma WindowExtend(now: DateTime, i: nat)
    requires WindowExists(now, i) && (i == 0 || ValidDate(Shift(now, i)))
    ensures WindowExists(now, i + 1)
    ensures ValidDate(Shift(now, i)) && WindowEntry(now, i) == FormatMonthYear(Shift(now, i))
  {
    ShiftZero(now);
  }

  /** A missing date inside the window makes the whole call raise. */
  lemma WindowBroken(now: DateTime, n: int, i: nat)
    requires 1 <= i < n && !ValidDate(Shift(now, i))
    ensures CalendarWindow(now, n).None?
  {
  }

  /** A list holding entry j at every j is the window. */
  lemma WindowOfEntries(now: DateTime, n: int, months: seq<string>)
    requires WindowExists(now, n)
    requires |months| == (if n < 0 then 0 else n)
    requires forall j :: 0 <= j < |months| ==> months[j] == WindowEntry(now, j)
    ensures CalendarWindow(now, n) == Some(months)
  {
    assert months == seq(if n < 0 then 0 else n, j requires 0 <= j => WindowEntry(now, j));
  }

  /** The window starts with the current month. */
  lemma WindowStartsNow(now: DateTime, n: int)
    requires n >= 1 && CalendarWindow(now, n).Some?
    ensures CalendarWindow(now, n).value[0] == FormatMonthYear(now)
  {
    ShiftZero(now);
  }

  /** Consecutive entries name consecutive calendar months. */
  lemma WindowConsecutive(now: DateTime, n: int, i: nat)
    requires i + 1 < n && CalendarWindow(now, n).Some?
    ensures ValidDate(Shift(now, i)) && ValidDate(Shift(now, i + 1))
    ensures MonthOrdinal(Shift(now, i + 1)) == MonthOrdinal(Shift(now, i)) + 1
    ensures CalendarWindow(now, n).value[i] == FormatMonthYear(Shift(now, i))
    ensures CalendarWindow(now, n).value[i + 1] == FormatMonthYear(Shift(now, i + 1))
  {
    WindowEntryAt(now, n, i);
    WindowEntryAt(now, n, i + 1);
  }

  /** Entry i of a window that exists names the month i months on, which has the start day. */
  lemma WindowEntryAt(now: DateTime, n: int, i: nat)
    requires i < n && CalendarWindow(now, n).Some?
    ensures ValidDate(Shift(now, i)) && CalendarWindow(now, n).value[i] == FormatMonthYear(Shift(now, i))
  {
    if i == 0 {
      ShiftZero(now);
    }
    assert CalendarWindow(now, n).value[i] == WindowEntry(now, i);
  }

  /** A start on a day every month has (the 28th or earlier) never raises within year 9999. */
  lemma EarlyDayWindowExists(now: DateTime, n: int)
    requires now.day <= 28 && n >= 1 && Shift(now, n - 1).year <= MAX_YEAR
    ensures CalendarWindow(now, n).Some?
  {
    forall i: nat | 1 <= i < n
      ensures ValidDate(Shift(now, i))
    {
      var s, e := Shift(now, i), Shift(now, n - 1);
      assert MonthOrdinal(s) <= MonthOrdinal(e);
      assert s.year <= e.year;
      assert 1 <= s.year;
    }
  }

  /** The window from 31 January 2025 raises: there is no 31 February. */
  lemma JanuaryThirtyFirstRaises()
    ensures CalendarWindow(Date(2025, 1, 31), 2).None?
  {
    var s := Shift(Date(2025, 1, 31), 1);
    assert s == Date(2025, 2, 31);
    assert !ValidDate(s);
  }
}
