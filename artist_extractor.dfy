/** data_processing/venue_data/artist_extractor.py: asking the language model for the events in
    each chunk of a page and reading its "artist | Mon DD" lines. The model is the function
    `respond` (`None` when the call raises or returns no text), `strptime(s, "%b %d")` is
    `parseMonthDay` and the current year is `currentYear`. */
module ArtistExtractor {
  import opened Wrappers
  import opened Strings
  import opened Calendar
  import opened Events
  import opened Seqs

  /** The month and day a "%b %d" text names, when it parses. */
  function MonthDayOf(text: string, parseMonthDay: string -> Option<DateTime>): Option<(int, int)> {
    match parseMonthDay(text)
    case None => None
    case Some(d) => Some((d.month, d.day))
  }

  /** The event dated on the parsed month and day in the current year, if that date exists in
      that year (`replace(year=...)` raises otherwise). Python's `strptime(s, "%b %d")` reads the
      text in the default year 1900, which is not a leap year, so it already rejects "Feb 29";
      `parseMonthDay` is a parameter and may accept it, and then this check applies. */
  function DatedEvent(name: string, monthDay: Option<DateTime>, currentYear: int): Option<Event> {
    match monthDay
    case None => None
    case Some(d) =>
      var dated := Date(currentYear, d.month, d.day);
      if ValidDate(dated) then Some(Event(name, dated, "")) else None
  }

  /** The event of a line's "|"-separated parts: there must be exactly two. */
  function PartsEvent(parts: seq<string>, currentYear: int, parseMonthDay: string -> Option<DateTime>): Option<Event> {
    if |parts| != 2 then None else DatedEvent(Strip(parts[0]), parseMonthDay(Strip(parts[1])), currentYear)
  }

  /** The event one response line stands for: a non-blank line with exactly one "|", an artist
      and a "%b %d" date that exists in the current year. The record's normalisation strips the
      already stripped name again, which changes nothing. */
  function LineEvent(line: string, currentYear: int, parseMonthDay: string -> Option<DateTime>): Option<Event> {
    if Strip(line) == "" || '|' !in line then None else PartsEvent(Split(line, '|'), currentYear, parseMonthDay)
  }

  /** An event is read only from a line with exactly one "|": its name is the stripped text before
      it, its date the parsed month and day after it, in the current year, and its venue empty. */
  lemma LineEventSound(line: string, currentYear: int, parseMonthDay: string -> Option<DateTime>, e: Event)
    requires LineEvent(line, currentYear, parseMonthDay) == Some(e)
    ensures '|' in line && |Split(line, '|')| == 2
    ensures e.name == Strip(Split(line, '|')[0]) && e.venue == "" && e.date.year == currentYear
    ensures MonthDayOf(Strip(Split(line, '|')[1]), parseMonthDay) == Some((e.date.month, e.date.day))
  {
  }

  /** A text that strips to nothing is all whitespace. */
  lemma StripEmptyAllSpace(s: string)
    requires Strip(s) == ""
    ensures forall i :: 0 <= i < |s| ==> IsSpace(s[i])
  {
  }

  /** A line holding a "|" is not blank. */
  lemma BarNotBlank(line: string)
    requires '|' in line
    ensures Strip(line) != ""
  {
    if Strip(line) == "" {
      StripEmptyAllSpace(line);
    }
  }

  /** Conversely, a line with exactly one "|" whose date part parses to a day that exists in the
      current year is read as the event of the stripped name on that day. */
  lemma LineEventComplete(line: string, currentYear: int, parseMonthDay: string -> Option<DateTime>, month: int, day: int)
    requires '|' in line && |Split(line, '|')| == 2
    requires MonthDayOf(Strip(Split(line, '|')[1]), parseMonthDay) == Some((month, day))
    requires ValidDate(Date(currentYear, month, day))
    ensures LineEvent(line, currentYear, parseMonthDay) == Some(Event(Strip(Split(line, '|')[0]), Date(currentYear, month, day), ""))
  {
    BarNotBlank(line);
    var parts := Split(line, '|');
    assert LineEvent(line, currentYear, parseMonthDay) == PartsEvent(parts, currentYear, parseMonthDay);
  }

  /** What one line adds to the events: its event, or nothing. */
  function LineEvents(line: string, currentYear: int, parseMonthDay: string -> Option<DateTime>): seq<Event> {
    match LineEvent(line, currentYear, parseMonthDay)
    case None => []
    case Some(e) => [e]
  }

  /** The events of the lines, in order; a line that does not read as an event is skipped. */
  function LinesEvents(lines: seq<string>, currentYear: int, parseMonthDay: string -> Option<DateTime>): seq<Event> {
    if lines == [] then []
    else LinesEvents(lines[..|lines| - 1], currentYear, parseMonthDay) + LineEvents(lines[|lines| - 1], currentYear, parseMonthDay)
  }

  /** One more line of a prefix adds that line's events. */
  lemma LinesEventsPrefix(lines: seq<string>, i: nat, currentYear: int, parseMonthDay: string -> Option<DateTime>)
    requires i < |lines|
    ensures LinesEvents(lines[..i + 1], currentYear, parseMonthDay)
      == LinesEvents(lines[..i], currentYear, parseMonthDay) + LineEvents(lines[i], currentYear, parseMonthDay)
  {
    assert lines[..i + 1][..i] == lines[..i];
  }

  /** The lines are read one at a time: the events of two runs of lines are the events of each. */
  lemma {:induction false} LinesEventsAppend(a: seq<string>, b: seq<string>, currentYear: int, parseMonthDay: string -> Option<DateTime>)
    ensures LinesEvents(a + b, currentYear, parseMonthDay) == LinesEvents(a, currentYear, parseMonthDay) + LinesEvents(b, currentYear, parseMonthDay)
    decreases |b|
  {
    if b == [] {
      assert a + b == a;
    } else {
      var b', x := b[..|b| - 1], b[|b| - 1];
      assert a + b == (a + b') + [x];
      assert b == b' + [x];
      LinesEventsSnoc(a + b', x, currentYear, parseMonthDay);
      LinesEventsSnoc(b', x, currentYear, parseMonthDay);
      LinesEventsAppend(a, b', currentYear, parseMonthDay);
      Seqs.AppendAssoc(LinesEvents(a, currentYear, parseMonthDay), LinesEvents(b', currentYear, parseMonthDay),
                       LineEvents(x, currentYear, parseMonthDay));
    }
  }

  /** One more line adds that line's events at the end. */
  lemma LinesEventsSnoc(lines: seq<string>, line: string, currentYear: int, parseMonthDay: string -> Option<DateTime>)
    ensures LinesEvents(lines + [line], currentYear, parseMonthDay)
      == LinesEvents(lines, currentYear, parseMonthDay) + LineEvents(line, currentYear, parseMonthDay)
  {
    assert (lines + [line])[..|lines|] == lines;
  }

  /** Line k's event comes after the events of the lines before it and before those after it;
      so every line that reads as an event is in the result, in line order. */
  lemma LinesEventsAt(lines: seq<string>, k: int, currentYear: int, parseMonthDay: string -> Option<DateTime>)
    requires 0 <= k < |lines|
    ensures LinesEvents(lines, currentYear, parseMonthDay)
      == LinesEvents(lines[..k], currentYear, parseMonthDay) + LineEvents(lines[k], currentYear, parseMonthDay)
         + LinesEvents(lines[k + 1..], currentYear, parseMonthDay)
    ensures LineEvent(lines[k], currentYear, parseMonthDay).Some? ==>
      LineEvent(lines[k], currentYear, parseMonthDay).value in LinesEvents(lines, currentYear, parseMonthDay)
  {
    assert lines == lines[..k] + [lines[k]] + lines[k + 1..];
    LinesEventsAppend(lines[..k] + [lines[k]], lines[k + 1..], currentYear, parseMonthDay);
    LinesEventsPrefix(lines, k, currentYear, parseMonthDay);
    assert lines[..k + 1] == lines[..k] + [lines[k]];
    var pre := LinesEvents(lines[..k], currentYear, parseMonthDay);
    if LineEvent(lines[k], currentYear, parseMonthDay).Some? {
      assert LinesEvents(lines, currentYear, parseMonthDay)[|pre|] == LineEvent(lines[k], currentYear, parseMonthDay).value;
    }
  }

  /** _parse_events: the events of the response's lines. */
  method ParseEvents(text: string, currentYear: int, parseMonthDay: string -> Option<DateTime>) returns (events: seq<Event>)
    ensures events == LinesEvents(Split(text, '\n'), currentYear, parseMonthDay)
  {
    events := ParseLines(Split(text, '\n'), currentYear, parseMonthDay);
  }

  /** The line loop of parse_events. */
  method ParseLines(lines: seq<string>, currentYear: int, parseMonthDay: string -> Option<DateTime>) returns (events: seq<Event>)
    ensures events == LinesEvents(lines, currentYear, parseMonthDay)
  {
    events := [];
    for i := 0 to |lines|
      invariant events == LinesEvents(lines[..i], currentYear, parseMonthDay)
    {
      LinesEventsPrefix(lines, i, currentYear, parseMonthDay);
      events := events + LineEvents(lines[i], currentYear, parseMonthDay);
    }
    assert lines[..|lines|] == lines;
  }

  /** Each event read from a response comes from one of its lines, and its venue is empty. */
  lemma {:induction false} LinesEventsSound(lines: seq<string>, currentYear: int, parseMonthDay: string -> Option<DateTime>, e: Event)
    requires e in LinesEvents(lines, currentYear, parseMonthDay)
    ensures exists line :: line in lines && LineEvent(line, currentYear, parseMonthDay) == Some(e)
  {
    var init := lines[..|lines| - 1];
    if e in LinesEvents(init, currentYear, parseMonthDay) {
      LinesEventsSound(init, currentYear, parseMonthDay, e);
      var line :| line in init && LineEvent(line, currentYear, parseMonthDay) == Some(e);
      assert line in lines;
    } else {
      assert LineEvent(lines[|lines| - 1], currentYear, parseMonthDay) == Some(e);
    }
  }

  /** The events of one chunk: none when the model call fails. */
  function ChunkEvents(chunk: string, respond: string -> Option<string>, currentYear: int,
                       parseMonthDay: string -> Option<DateTime>): seq<Event> {
    ResponseEvents(respond(chunk), currentYear, parseMonthDay)
  }

  /** The events of one model reply, none when the call failed. */
  function ResponseEvents(response: Option<string>, currentYear: int, parseMonthDay: string -> Option<DateTime>): seq<Event> {
    match response
    case None => []
    case Some(text) => LinesEvents(Split(text, '\n'), currentYear, parseMonthDay)
  }

  /** Reading one chunk, as a function of the chunk. */
  function ChunkReader(respond: string -> Option<string>, currentYear: int, parseMonthDay: string -> Option<DateTime>): string -> seq<Event> {
    chunk => ChunkEvents(chunk, respond, currentYear, parseMonthDay)
  }

  /** The events of all chunks, chunk after chunk. */
  function ChunksEvents(chunks: seq<string>, respond: string -> Option<string>, currentYear: int,
                        parseMonthDay: string -> Option<DateTime>): seq<Event> {
    FlatMap(chunks, ChunkReader(respond, currentYear, parseMonthDay))
  }

  /** The chunks are processed independently: the events of two runs of chunks are the events of
      each, so a chunk whose call fails only loses its own events. */
  lemma ChunksEventsAppend(a: seq<string>, b: seq<string>, respond: string -> Option<string>,
                           currentYear: int, parseMonthDay: string -> Option<DateTime>)
    ensures ChunksEvents(a + b, respond, currentYear, parseMonthDay)
      == ChunksEvents(a, respond, currentYear, parseMonthDay) + ChunksEvents(b, respond, currentYear, parseMonthDay)
  {
    FlatMapAppend(a, b, ChunkReader(respond, currentYear, parseMonthDay));
  }

  /** A chunk whose model call fails contributes nothing. */
  lemma FailedChunkSkipped(a: seq<string>, c: string, b: seq<string>, respond: string -> Option<string>,
                           currentYear: int, parseMonthDay: string -> Option<DateTime>)
    requires respond(c).None?
    ensures ChunksEvents(a + [c] + b, respond, currentYear, parseMonthDay)
      == ChunksEvents(a, respond, currentYear, parseMonthDay) + ChunksEvents(b, respond, currentYear, parseMonthDay)
  {
    var f := ChunkReader(respond, currentYear, parseMonthDay);
    FlatMapAppend(a + [c], b, f);
    FlatMapSnoc(a, c, f);
    assert f(c) == ChunkEvents(c, respond, currentYear, parseMonthDay) == [];
    assert FlatMap(a + [c], f) == FlatMap(a, f) + [] == FlatMap(a, f);
  }

  /** process_chunks: the events of every chunk in order; a chunk whose call raises is skipped. */
  method ProcessChunks(chunks: seq<string>, respond: string -> Option<string>, currentYear: int,
                       parseMonthDay: string -> Option<DateTime>) returns (events: seq<Event>)
    ensures events == ChunksEvents(chunks, respond, currentYear, parseMonthDay)
  {
    events := [];
    for i := 0 to |chunks|
      invariant events == ChunksEvents(chunks[..i], respond, currentYear, parseMonthDay)
    {
      assert chunks[..i + 1] == chunks[..i] + [chunks[i]];
      FlatMapSnoc(chunks[..i], chunks[i], ChunkReader(respond, currentYear, parseMonthDay));
      var response := respond(chunks[i]);
      if response.Some? {
        var parsed := ParseEvents(response.value, currentYear, parseMonthDay);
        events := events + parsed;
      } else {
        assert events + [] == events;
      }
    }
    assert chunks[..|chunks|] == chunks;
  }
}
