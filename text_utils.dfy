/** scripts/venue_data/text_utils.py: splitting a page's text into pieces that fit the language
    model's token limit, and the month window of the venue pipeline, which adds 30 days per step. */
module TextUtils {
  import opened Wrappers
  import opened Strings
  import opened Seqs
  import opened Calendar
  import ApiUtils

  const TOKEN_LIMIT := 4000

  /** chunk_message: the message itself when its tokens fit the limit, otherwise the decoded text of
      each run of TOKEN_LIMIT consecutive tokens. The tokenizer is the pair encode/decode. */
  function ChunkMessage<Tok>(message: string, encode: string -> seq<Tok>, decode: seq<Tok> -> string): seq<string> {
    var tokens := encode(message);
    if |tokens| > TOKEN_LIMIT then
      var pieces := Chunks(tokens, TOKEN_LIMIT);
      seq(|pieces|, i requires 0 <= i < |pieces| => decode(pieces[i]))
    else [message]
  }

  /** Every chunk is the decoding of at most TOKEN_LIMIT tokens, the pieces are consecutive and
      together they are all of the message's tokens; a message within the limit is passed on whole. */
  lemma ChunkMessageCoversTokens<Tok>(message: string, encode: string -> seq<Tok>, decode: seq<Tok> -> string)
    ensures |encode(message)| <= TOKEN_LIMIT ==> ChunkMessage(message, encode, decode) == [message]
    ensures |encode(message)| > TOKEN_LIMIT ==>
      var pieces := Chunks(encode(message), TOKEN_LIMIT);
      && Concat(pieces) == encode(message)
      && |ChunkMessage(message, encode, decode)| == |pieces| >= 2
      && (|pieces| - 1) * TOKEN_LIMIT < |encode(message)| <= |pieces| * TOKEN_LIMIT
      && forall i :: 0 <= i < |pieces| ==>
           ChunkMessage(message, encode, decode)[i] == decode(pieces[i]) && 0 < |pieces[i]| <= TOKEN_LIMIT
  {
    var tokens := encode(message);
    if |tokens| > TOKEN_LIMIT {
      ChunksConcat(tokens, TOKEN_LIMIT);
      ChunksCount(tokens, TOKEN_LIMIT);
      var pieces := Chunks(tokens, TOKEN_LIMIT);
      assert pieces[1..] == Chunks(tokens[TOKEN_LIMIT..], TOKEN_LIMIT);
      assert tokens[TOKEN_LIMIT..] != [];
    }
  }

  /** The key of the i-th step: the month of now + 30·i days, lower-cased. */
  function StepKey(now: DateTime, i: nat): string {
    match AddDays(now, 30 * i)
    case Some(d) => MonthKey(d)
    case None => ""
  }

  /** Every 30-day step of the window is a date. */
  predicate StepsExist(now: DateTime, n: int) {
    forall i: nat :: i < n ==> AddDays(now, 30 * i).Some?
  }

  /** What get_next_months returns: for i below n, the lower-cased "%B_%Y" of now + 30·i days;
      `None` is the `OverflowError` past year 9999. */
  function ThirtyDayWindow(now: DateTime, n: int): Option<seq<string>> {
    if StepsExist(now, n) then Some(seq(if n < 0 then 0 else n, i requires 0 <= i => StepKey(now, i)))
    else None
  }

  /** get_next_months */
  method GetNextMonths(now: DateTime, numMonths: int) returns (r: Option<seq<string>>)
    ensures r == ThirtyDayWindow(now, numMonths)
  {
    var months: seq<string> := [];
    var i := 0;
    while i < numMonths
      invariant 0 <= i && (i <= numMonths || i == 0)
      invariant StepsExist(now, i)
      invariant |months| == i && forall j :: 0 <= j < i ==> months[j] == StepKey(now, j)
    {
      var next := AddDays(now, 30 * i);
      if next.None? {
        return None;
      }
      months := months + [MonthKey(next.value)];
      i := i + 1;
    }
    assert months == seq(if numMonths < 0 then 0 else numMonths, j requires 0 <= j => StepKey(now, j));
    return Some(months);
  }

  /** The first letter of a month key is the lower-cased first letter of the month's name. */
  lemma MonthKeyHead(d: DateTime)
    ensures |MonthKey(d)| > 0 && MonthKey(d)[0] == LowerChar(MonthName(d.month)[0])
  {
    assert |MonthName(d.month)| > 0;
    assert FormatMonthYear(d)[0] == MonthName(d.month)[0];
  }

  /** Thirty-day steps from 1 January 2025 give January twice and never February. */
  lemma ThirtyDayWindowSkipsFebruary()
    ensures ThirtyDayWindow(Date(2025, 1, 1), 3) ==
      Some([MonthKey(Date(2025, 1, 1)), MonthKey(Date(2025, 1, 1)), MonthKey(Date(2025, 3, 2))])
    ensures forall k :: k in ThirtyDayWindow(Date(2025, 1, 1), 3).value ==> k != MonthKey(Date(2025, 2, 1))
  {
    ThirtyDayWindowFrom2025();
    MonthKeyHead(Date(2025, 1, 1));
    MonthKeyHead(Date(2025, 2, 1));
    MonthKeyHead(Date(2025, 3, 2));
  }

  /** The three thirty-day steps from 1 January 2025 land on 1 January, 31 January and 2 March. */
  lemma ThirtyDayWindowFrom2025()
    ensures ThirtyDayWindow(Date(2025, 1, 1), 3) ==
      Some([MonthKey(Date(2025, 1, 1)), MonthKey(Date(2025, 1, 1)), MonthKey(Date(2025, 3, 2))])
  {
    var now: DateTime := Date(2025, 1, 1);
    assert AddDays(now, 0) == Some(Date(2025, 1, 1));
    assert AddDays(now, 30) == Some(Date(2025, 1, 31));
    assert AddDays(Date(2025, 3, 1), 1) == Some(Date(2025, 3, 2));
    assert AddDays(Date(2025, 2, 1), 29) == Some(Date(2025, 3, 2));
    assert AddDays(now, 60) == Some(Date(2025, 3, 2));
    assert StepKey(now, 1) == MonthKey(Date(2025, 1, 1));
    var w := [MonthKey(Date(2025, 1, 1)), MonthKey(Date(2025, 1, 1)), MonthKey(Date(2025, 3, 2))];
    assert ThirtyDayWindow(now, 3).value == w;
  }

  /** The evidently intended window: n consecutive calendar months from the current one, as
      lower-case keys, counted from the first of the month so that no later month lacks the day. */
  function MonthWindow(now: DateTime, n: int): Option<seq<string>> {
    match ApiUtils.CalendarWindow(Date(now.year, now.month, 1), n)
    case None => None
    case Some(ms) => Some(seq(|ms|, i requires 0 <= i < |ms| => Lower(ms[i])))
  }

  /** Entry i of the intended window is the key of the month i months after the current one, so
      no month repeats and none is skipped; the window exists whenever its last month is within
      year 9999. */
  lemma MonthWindowConsecutive(now: DateTime, n: int)
    requires n >= 1 && ApiUtils.Shift(Date(now.year, now.month, 1), n - 1).year <= MAX_YEAR
    ensures MonthWindow(now, n).Some? && |MonthWindow(now, n).value| == n
    ensures forall i: nat :: i < n ==>
      var d := ApiUtils.Shift(Date(now.year, now.month, 1), i);
      && ValidDate(d)
      && ApiUtils.MonthOrdinal(d) == ApiUtils.MonthOrdinal(now) + i
      && MonthWindow(now, n).value[i] == MonthKey(d)
  {
    var first: DateTime := Date(now.year, now.month, 1);
    ApiUtils.EarlyDayWindowExists(first, n);
    ApiUtils.ShiftZero(first);
    var ms := ApiUtils.CalendarWindow(first, n).value;
    forall i: nat | i < n
      ensures var d := ApiUtils.Shift(first, i); ValidDate(d) && MonthWindow(now, n).value[i] == MonthKey(d)
    {
      assert ms[i] == ApiUtils.WindowEntry(first, i);
    }
  }

  /** From 1 January of any year the intended window is January, February and March. */
  lemma MonthWindowFromJanuary(y: int)
    requires 1 <= y <= MAX_YEAR
    ensures MonthWindow(Date(y, 1, 1), 3) ==
      Some([MonthKey(Date(y, 1, 1)), MonthKey(Date(y, 2, 1)), MonthKey(Date(y, 3, 1))])
  {
    var now: DateTime := Date(y, 1, 1);
    var s1, s2 := ApiUtils.Shift(now, 1), ApiUtils.Shift(now, 2);
    assert ApiUtils.MonthOrdinal(s1) == y * 12 + 1;
    assert s1 == Date(y, 2, 1) && s2 == Date(y, 3, 1);
    MonthWindowConsecutive(now, 3);
    var w := MonthWindow(now, 3).value;
    ApiUtils.ShiftZero(now);
    assert w == [MonthKey(Date(y, 1, 1)), MonthKey(Date(y, 2, 1)), MonthKey(Date(y, 3, 1))];
  }
}
