/** Proleptic Gregorian dates as Python's `datetime` handles them: years 1 to 9999, English month
    names for `strftime("%B")`, and adding whole days the way `date + timedelta(days=n)` does. */
module Calendar {
  import opened Wrappers
  import opened Strings

  datatype Date = Date(year: int, month: int, day: int)

  const MAX_YEAR := 9999

  /** The Gregorian leap-year rule. */
  predicate IsLeap(y: int) {
    y % 4 == 0 && (y % 100 != 0 || y % 400 == 0)
  }

  /** The length of month m of year y. */
  function DaysInMonth(y: int, m: int): (r: int)
    requires 1 <= m <= 12
    ensures 28 <= r <= 31
  {
    if m == 2 then (if IsLeap(y) then 29 else 28)
    else if m == 4 || m == 6 || m == 9 || m == 11 then 30
    else 31
  }

  /** A date the calendar has: a month of 1 to 12 and a day inside it. */
  predicate ValidDate(d: Date) {
    1 <= d.year <= MAX_YEAR && 1 <= d.month <= 12 && 1 <= d.day <= DaysInMonth(d.year, d.month)
  }

  /** A date `datetime` accepts; the time of day plays no part in the core and is not kept. */
  type DateTime = d: Date | ValidDate(d) witness Date(1970, 1, 1)

  const MonthNames: seq<string> := ["January", "February", "March", "April", "May", "June", "July",
    "August", "September", "October", "November", "December"]

  /** `strftime("%B")` in the C locale. */
  function MonthName(m: int): string
    requires 1 <= m <= 12
  {
    MonthNames[m - 1]
  }

  /** `strftime("%B_%Y")`, e.g. "January_2025". */
  function FormatMonthYear(d: DateTime): string {
    MonthName(d.month) + "_" + NatToString(d.year)
  }

  /** The lower-case month key the file names use, e.g. "january_2025". */
  function MonthKey(d: DateTime): string {
    Lower(FormatMonthYear(d))
  }

  /** A month name in any letter case, as `%B` matches it when parsing. */
  predicate IsMonthName(s: string) {
    exists m :: 1 <= m <= 12 && Lower(s) == Lower(MonthName(m))
  }

  /** `datetime.strptime(t, "%B_%Y")` succeeds: a month name in any case, an underscore and four
      digits naming a year of at least 1, with nothing left over. */
  predicate ParsesAsMonthYear(t: string) {
    |t| >= 5 && t[|t| - 5] == '_'
    && (forall i :: |t| - 4 <= i < |t| ==> IsDigit(t[i]))
    && DigitsValue(t[|t| - 4..]) >= 1
    && IsMonthName(t[..|t| - 5])
  }

  /** Lower-casing distributes over concatenation. */
  lemma LowerAppend(a: string, b: string)
    ensures Lower(a + b) == Lower(a) + Lower(b)
  {
    assert forall i :: 0 <= i < |a + b| ==> Lower(a + b)[i] == (Lower(a) + Lower(b))[i];
  }

  /** Lower-casing twice is lower-casing once. */
  lemma LowerIdempotent(s: string)
    ensures Lower(Lower(s)) == Lower(s)
  {
  }

  /** Digits are unchanged by lower-casing. */
  lemma LowerDigits(s: string)
    requires forall i :: 0 <= i < |s| ==> IsDigit(s[i])
    ensures Lower(s) == s
  {
  }

  /** The pieces of `name_digits` with four digits. */
  lemma MonthYearPieces(name: string, digits: string)
    requires |digits| == 4
    ensures var t := name + "_" + digits;
      |t| >= 5 && t[|t| - 5] == '_' && t[..|t| - 5] == name && t[|t| - 4..] == digits
  {
    var t := name + "_" + digits;
    assert t[|name|] == '_';
    assert t[..|t| - 5] == name;
    assert t[|t| - 4..] == digits;
  }

  /** A month name, an underscore and four digits naming a year of at least 1 parse. */
  lemma ShapeParses(name: string, digits: string)
    requires IsMonthName(name)
    requires |digits| == 4 && forall i :: 0 <= i < 4 ==> IsDigit(digits[i])
    requires DigitsValue(digits) >= 1
    ensures ParsesAsMonthYear(name + "_" + digits)
  {
    MonthYearPieces(name, digits);
    var t := name + "_" + digits;
    var tail := t[|t| - 4..];
    assert forall i :: |t| - 4 <= i < |t| ==> t[i] == tail[i - (|t| - 4)];
  }

  /** A month's name, and its lower-cased form, are month names. */
  lemma MonthNameLower(m: int)
    requires 1 <= m <= 12
    ensures IsMonthName(MonthName(m)) && IsMonthName(Lower(MonthName(m)))
  {
    LowerIdempotent(MonthName(m));
  }

  /** Every month of a four-digit year prints as a key that `strptime(key, "%B_%Y")` reads back,
      in either letter case. */
  lemma MonthKeyParses(d: DateTime)
    requires 1000 <= d.year
    ensures ParsesAsMonthYear(FormatMonthYear(d))
    ensures ParsesAsMonthYear(MonthKey(d))
  {
    var name, digits := MonthName(d.month), NatToString(d.year);
    FourDigitYear(d.year);
    MonthNameLower(d.month);
    ShapeParses(name, digits);
    LowerAppend(name + "_", digits);
    LowerAppend(name, "_");
    LowerDigits(digits);
    assert MonthKey(d) == Lower(name) + "_" + digits;
    ShapeParses(Lower(name), digits);
  }

  /** The first day of the following month; `None` after December 9999. */
  function FirstOfNextMonth(d: DateTime): Option<DateTime> {
    if d.month < 12 then Some(Date(d.year, d.month + 1, 1))
    else if d.year < MAX_YEAR then Some(Date(d.year + 1, 1, 1))
    else None
  }

  /** `d + timedelta(days=n)`, moving a month at a time; `None` is the `OverflowError` past 9999. */
  function AddDays(d: DateTime, n: nat): (r: Option<DateTime>)
    decreases n
  {
    var dim := DaysInMonth(d.year, d.month);
    if d.day + n <= dim then Some(Date(d.year, d.month, d.day + n))
    else
      match FirstOfNextMonth(d)
      case None => None
      case Some(next) => AddDays(next, n - (dim - d.day + 1))
  }

  /** The following day; `None` after 31 December 9999. */
  function NextDay(d: DateTime): Option<DateTime> {
    if d.day < DaysInMonth(d.year, d.month) then Some(Date(d.year, d.month, d.day + 1))
    else FirstOfNextMonth(d)
  }

  /** Adding n days as n single steps: the reference meaning of `+ timedelta(days=n)`. */
  function AddDaysStepwise(d: DateTime, n: nat): Option<DateTime>
    decreases n
  {
    if n == 0 then Some(d)
    else match NextDay(d)
      case None => None
      case Some(e) => AddDaysStepwise(e, n - 1)
  }

  /** Adding n days is one day, then n - 1 more. */
  lemma AddDaysUnfold(d: DateTime, n: nat)
    requires n > 0
    ensures AddDays(d, n) == match NextDay(d) { case None => None case Some(e) => AddDays(e, n - 1) }
  {
  }

  /** Moving a month at a time agrees with stepping one day at a time. */
  lemma {:induction false} AddDaysIsStepwise(d: DateTime, n: nat)
    ensures AddDays(d, n) == AddDaysStepwise(d, n)
    decreases n
  {
    if n > 0 {
      AddDaysUnfold(d, n);
      match NextDay(d)
      case None =>
      case Some(e) => AddDaysIsStepwise(e, n - 1);
    }
  }
}
