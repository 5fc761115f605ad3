/** scripts/venue_data/extractor.py: the older extractor, which reads "artist|YYYY-MM-DD" lines and
    removes repeated artist names across all chunks. The model is `respond` (`None` when the call
    raises or returns no text) and `strptime(s, "%Y-%m-%d")` is `parseDate`. */
module Extractor {
  import opened Wrappers
  import opened Strings
  import opened Calendar
  import opened Events
  import opened Seqs

  /** The events of a response's lines, or `None` when a line holds a "|" but does not split into
      exactly two parts: that unpacking is outside the `try` that skips bad dates, so the whole
      chunk yields nothing. */
  function LinesEvents(lines: seq<string>, parseDate: string -> Option<DateTime>): Option<seq<Event>> {
    if lines == [] then Some([])
    else match LinesEvents(lines[..|lines| - 1], parseDate)
      case None => None
      case Some(es) => LineStep(es, lines[|lines| - 1], parseDate)
  }

  /** One more line: lines without "|" are skipped. */
  function LineStep(es: seq<Event>, line: string, parseDate: string -> Option<DateTime>): Option<seq<Event>> {
    if '|' !in line then Some(es) else PartsStep(es, Split(line, '|'), parseDate)
  }

  /** The line's parts must be exactly two; an unparsable date skips the line. */
  function PartsStep(es: seq<Event>, parts: seq<string>, parseDate: string -> Option<DateTime>): Option<seq<Event>> {
    if |parts| != 2 then None
    else match parseDate(Strip(parts[1]))
      case None => Some(es)
      case Some(d) => Some(es + [Event(Strip(parts[0]), d, "")])
  }

  /** One more line is one more step, unless a line before it had failed. */
  lemma LinesEventsSnoc(lines: seq<string>, line: string, parseDate: string -> Option<DateTime>)
    ensures LinesEvents(lines + [line], parseDate)
      == match LinesEvents(lines, parseDate) case None => None case Some(es) => LineStep(es, line, parseDate)
  {
    assert (lines + [line])[..|lines|] == lines;
  }

  /** The line an event was read from: it has one "|", the event's name is the stripped text
      before it and its date the parsed text after it. */
  predicate ReadFrom(line: string, e: Event, parseDate: string -> Option<DateTime>) {
    '|' in line && |Split(line, '|')| == 2 && e.name == Strip(Split(line, '|')[0])
    && parseDate(Strip(Split(line, '|')[1])) == Some(e.date) && e.venue == ""
  }

  /** Every event of a chunk was read from one of its lines. */
  lemma {:induction false} LinesEventsSound(lines: seq<string>, parseDate: string -> Option<DateTime>, e: Event)
    requires LinesEvents(lines, parseDate).Some? && e in LinesEvents(lines, parseDate).value
    ensures exists k :: 0 <= k < |lines| && ReadFrom(lines[k], e, parseDate)
  {
    var init, line := lines[..|lines| - 1], lines[|lines| - 1];
    LinesEventsLast(lines, parseDate);
    InJoin(LinesEvents(init, parseDate), LineEvents(line, parseDate), LinesEvents(lines, parseDate), e);
    if e in LinesEvents(init, parseDate).value {
      LinesEventsSound(init, parseDate, e);
      var k :| 0 <= k < |init| && ReadFrom(init[k], e, parseDate);
      assert lines[k] == init[k];
    } else {
      LineEventsSound(line, e, parseDate);
    }
  }

  /** An event of a joined result is an event of one of its halves. */
  lemma InJoin(a: Option<seq<Event>>, b: Option<seq<Event>>, r: Option<seq<Event>>, e: Event)
    requires r == JoinEvents(a, b) && r.Some? && e in r.value
    ensures a.Some? && b.Some? && (e in a.value || e in b.value)
  {
  }

  /** Every event a line adds on its own was read from it. */
  lemma LineEventsSound(line: string, e: Event, parseDate: string -> Option<DateTime>)
    requires LineEvents(line, parseDate).Some? && e in LineEvents(line, parseDate).value
    ensures ReadFrom(line, e, parseDate)
  {
    var parts := Split(line, '|');
    assert '|' in line && |parts| == 2;
    var d := parseDate(Strip(parts[1]));
    assert d.Some?;
    assert LineEvents(line, parseDate).value == [] + [Event(Strip(parts[0]), d.value, "")];
  }

  /** Conversely, a line an event can be read from adds that event. */
  lemma ReadFromStep(es: seq<Event>, line: string, e: Event, parseDate: string -> Option<DateTime>)
    requires ReadFrom(line, e, parseDate)
    ensures LineStep(es, line, parseDate) == Some(es + [e])
  {
  }

  /** The events one line adds on its own, or `None` when it fails the chunk. */
  function LineEvents(line: string, parseDate: string -> Option<DateTime>): Option<seq<Event>> {
    LineStep([], line, parseDate)
  }

  /** The parts' step adds the same events whatever came before them. */
  lemma PartsStepShift(es: seq<Event>, parts: seq<string>, parseDate: string -> Option<DateTime>)
    ensures PartsStep(es, parts, parseDate) == JoinEvents(Some(es), PartsStep([], parts, parseDate))
  {
    if |parts| == 2 {
      match parseDate(Strip(parts[1]))
      case None => AppendEmpty(es);
      case Some(d) => AppendEmpty([Event(Strip(parts[0]), d, "")]);
    }
  }

  /** A line's step adds the same events whatever came before it. */
  lemma LineStepShift(es: seq<Event>, line: string, parseDate: string -> Option<DateTime>)
    ensures LineStep(es, line, parseDate) == JoinEvents(Some(es), LineEvents(line, parseDate))
  {
    if '|' in line {
      PartsStepShift(es, Split(line, '|'), parseDate);
    } else {
      assert es + [] == es;
    }
  }

  /** Two results side by side: the events of each, or `None` when either chunk part failed. */
  function JoinEvents(a: Option<seq<Event>>, b: Option<seq<Event>>): Option<seq<Event>> {
    if a.None? || b.None? then None else Some(a.value + b.value)
  }

  /** One more line joins that line's own events to those before it. */
  lemma LinesEventsSnocJoin(lines: seq<string>, line: string, parseDate: string -> Option<DateTime>)
    ensures LinesEvents(lines + [line], parseDate) == JoinEvents(LinesEvents(lines, parseDate), LineEvents(line, parseDate))
  {
    LinesEventsSnoc(lines, line, parseDate);
    if LinesEvents(lines, parseDate).Some? {
      LineStepShift(LinesEvents(lines, parseDate).value, line, parseDate);
    }
  }

  /** Joining is associative. */
  lemma JoinEventsAssoc(a: Option<seq<Event>>, b: Option<seq<Event>>, c: Option<seq<Event>>)
    ensures JoinEvents(JoinEvents(a, b), c) == JoinEvents(a, JoinEvents(b, c))
  {
    if a.Some? && b.Some? && c.Some? {
      assert a.value + b.value + c.value == a.value + (b.value + c.value);
    }
  }

  /** The lines are read one at a time: two runs of lines give the events of each. */
  lemma {:induction false} LinesEventsAppend(a: seq<string>, b: seq<string>, parseDate: string -> Option<DateTime>)
    ensures LinesEvents(a + b, parseDate) == JoinEvents(LinesEvents(a, parseDate), LinesEvents(b, parseDate))
    decreases |b|
  {
    if b == [] {
      assert a + b == a;
      if LinesEvents(a, parseDate).Some? {
        assert LinesEvents(a, parseDate).value + [] == LinesEvents(a, parseDate).value;
      }
    } else {
      var b', x := b[..|b| - 1], b[|b| - 1];
      assert a + b == (a + b') + [x];
      assert b == b' + [x];
      LinesEventsSnocJoin(a + b', x, parseDate);
      LinesEventsSnocJoin(b', x, parseDate);
      LinesEventsAppend(a, b', parseDate);
      JoinEventsAssoc(LinesEvents(a, parseDate), LinesEvents(b', parseDate), LineEvents(x, parseDate));
    }
  }

  /** A line fails its chunk exactly when it holds a "|" and does not split into two parts. */
  lemma LineEventsSome(line: string, parseDate: string -> Option<DateTime>)
    ensures LineEvents(line, parseDate).Some? <==> ('|' in line ==> |Split(line, '|')| == 2)
  {
  }

  /** A line an event can be read from adds just that event. */
  lemma ReadFromEvents(line: string, e: Event, parseDate: string -> Option<DateTime>)
    requires ReadFrom(line, e, parseDate)
    ensures LineEvents(line, parseDate) == Some([e])
  {
    ReadFromStep([], line, e, parseDate);
    AppendEmpty([e]);
  }

  /** Two parts whose second parses as a date add the event they describe. */
  lemma PartsStepRead(es: seq<Event>, parts: seq<string>, e: Event, parseDate: string -> Option<DateTime>)
    requires |parts| == 2 && e.name == Strip(parts[0]) && parseDate(Strip(parts[1])) == Some(e.date) && e.venue == ""
    ensures PartsStep(es, parts, parseDate) == Some(es + [e])
  {
  }

  /** A chunk's lines go through exactly when every line holding a "|" splits into two parts. */
  lemma {:induction false} LinesEventsSome(lines: seq<string>, parseDate: string -> Option<DateTime>)
    ensures LinesEvents(lines, parseDate).Some?
      <==> forall k :: 0 <= k < |lines| && '|' in lines[k] ==> |Split(lines[k], '|')| == 2
  {
    if lines != [] {
      var init, x := lines[..|lines| - 1], lines[|lines| - 1];
      LinesEventsLast(lines, parseDate);
      LinesEventsSome(init, parseDate);
      LineEventsSome(x, parseDate);
      JoinLinesGo(lines, init, LinesEvents(init, parseDate), LineEvents(x, parseDate), LinesEvents(lines, parseDate));
    }
  }

  /** The last line's own events join those of the lines before it. */
  lemma LinesEventsLast(lines: seq<string>, parseDate: string -> Option<DateTime>)
    requires lines != []
    ensures LinesEvents(lines, parseDate)
      == JoinEvents(LinesEvents(lines[..|lines| - 1], parseDate), LineEvents(lines[|lines| - 1], parseDate))
  {
    if LinesEvents(lines[..|lines| - 1], parseDate).Some? {
      LineStepShift(LinesEvents(lines[..|lines| - 1], parseDate).value, lines[|lines| - 1], parseDate);
    }
  }

  /** A joined result goes through exactly when both halves do, line by line. */
  lemma JoinLinesGo(lines: seq<string>, init: seq<string>, a: Option<seq<Event>>, b: Option<seq<Event>>, r: Option<seq<Event>>)
    requires lines != [] && init == lines[..|lines| - 1]
    requires a.Some? <==> forall k :: 0 <= k < |init| && '|' in init[k] ==> |Split(init[k], '|')| == 2
    requires b.Some? <==> ('|' in lines[|lines| - 1] ==> |Split(lines[|lines| - 1], '|')| == 2)
    requires r == JoinEvents(a, b)
    ensures r.Some? <==> forall k :: 0 <= k < |lines| && '|' in lines[k] ==> |Split(lines[k], '|')| == 2
  {
    assert forall k :: 0 <= k < |init| ==> init[k] == lines[k];
  }

  /** In a chunk that goes through, every line an event can be read from contributes that event,
      after the events of the lines before it and before those after it. */
  lemma LinesEventsComplete(lines: seq<string>, k: int, e: Event, parseDate: string -> Option<DateTime>)
    requires 0 <= k < |lines| && LinesEvents(lines, parseDate).Some?
    requires ReadFrom(lines[k], e, parseDate)
    ensures LinesEvents(lines[..k], parseDate).Some? && LinesEvents(lines[k + 1..], parseDate).Some?
    ensures LinesEvents(lines, parseDate).value
      == LinesEvents(lines[..k], parseDate).value + [e] + LinesEvents(lines[k + 1..], parseDate).value
    ensures e in LinesEvents(lines, parseDate).value
  {
    ReadFromEvents(lines[k], e, parseDate);
    LinesEventsOne(lines, k, e, parseDate);
  }

  /** The same, for a line that adds just the event `e`. */
  lemma LinesEventsOne(lines: seq<string>, k: int, e: Event, parseDate: string -> Option<DateTime>)
    requires 0 <= k < |lines| && LinesEvents(lines, parseDate).Some?
    requires LineEvents(lines[k], parseDate) == Some([e])
    ensures LinesEvents(lines[..k], parseDate).Some? && LinesEvents(lines[k + 1..], parseDate).Some?
    ensures LinesEvents(lines, parseDate).value
      == LinesEvents(lines[..k], parseDate).value + [e] + LinesEvents(lines[k + 1..], parseDate).value
    ensures e in LinesEvents(lines, parseDate).value
  {
    LinesEventsAt(lines, k, parseDate);
    InMiddle(LinesEvents(lines[..k], parseDate).value, e, LinesEvents(lines[k + 1..], parseDate).value);
  }

  /** A chunk's result splits at any line into the lines before it, that line and those after. */
  lemma LinesEventsAt(lines: seq<string>, k: int, parseDate: string -> Option<DateTime>)
    requires 0 <= k < |lines|
    ensures LinesEvents(lines, parseDate)
      == JoinEvents(JoinEvents(LinesEvents(lines[..k], parseDate), LineEvents(lines[k], parseDate)),
                    LinesEvents(lines[k + 1..], parseDate))
  {
    SplitAt(lines, k);
    LinesEventsAppend(lines[..k] + [lines[k]], lines[k + 1..], parseDate);
    LinesEventsSnocJoin(lines[..k], lines[k], parseDate);
  }

  /** extract_artists_from_text's result. */
  function ExtractedEvents(text: string, respond: string -> Option<string>, parseDate: string -> Option<DateTime>): seq<Event> {
    match respond(text)
    case None => []
    case Some(content) =>
      match LinesEvents(Split(content, '\n'), parseDate)
      case None => []
      case Some(es) => es
  }

  /** One line with more than one "|" throws away the chunk's other events. */
  lemma {:induction false} MalformedLineDropsChunk(lines: seq<string>, parseDate: string -> Option<DateTime>, k: int)
    requires 0 <= k < |lines| && '|' in lines[k] && |Split(lines[k], '|')| != 2
    ensures LinesEvents(lines, parseDate).None?
  {
    if k < |lines| - 1 {
      MalformedLineDropsChunk(lines[..|lines| - 1], parseDate, k);
    }
  }

  /** extract_artists_from_text */
  method ExtractArtistsFromText(text: string, respond: string -> Option<string>, parseDate: string -> Option<DateTime>)
    returns (events: seq<Event>)
    ensures events == ExtractedEvents(text, respond, parseDate)
  {
    var content := respond(text);
    if content.None? {
      return [];
    }
    var lines := Split(content.value, '\n');
    events := [];
    for i := 0 to |lines|
      invariant LinesEvents(lines[..i], parseDate) == Some(events)
    {
      assert lines[..i + 1] == lines[..i] + [lines[i]];
      LinesEventsSnoc(lines[..i], lines[i], parseDate);
      var line := lines[i];
      if '|' in line {
        var parts := Split(line, '|');
        if |parts| != 2 {
          MalformedLineDropsChunk(lines, parseDate, i);
          return [];
        }
        var date := parseDate(Strip(parts[1]));
        if date.Some? {
          events := events + [Event(Strip(parts[0]), date.value, "")];
        }
      }
    }
    assert lines[..|lines|] == lines;
  }

  /** Extracting from one chunk, as a function of the chunk. */
  function Reader(respond: string -> Option<string>, parseDate: string -> Option<DateTime>): string -> seq<Event> {
    chunk => ExtractedEvents(chunk, respond, parseDate)
  }

  /** The events of all chunks, chunk after chunk, before repeated names are removed. */
  function AllExtracted(chunks: seq<string>, respond: string -> Option<string>, parseDate: string -> Option<DateTime>): seq<Event> {
    FlatMap(chunks, Reader(respond, parseDate))
  }

  /** process_chunks: every chunk's events, then the first event of each artist name. */
  method ProcessChunks(chunks: seq<string>, respond: string -> Option<string>, parseDate: string -> Option<DateTime>)
    returns (unique: seq<Event>)
    ensures unique == DedupNames(AllExtracted(chunks, respond, parseDate))
    ensures NoDupNames(unique)
    ensures forall n :: n in Names(unique) <==> n in Names(AllExtracted(chunks, respond, parseDate))
  {
    var all: seq<Event> := [];
    for i := 0 to |chunks|
      invariant all == AllExtracted(chunks[..i], respond, parseDate)
    {
      assert chunks[..i + 1] == chunks[..i] + [chunks[i]];
      FlatMapSnoc(chunks[..i], chunks[i], Reader(respond, parseDate));
      var found := ExtractArtistsFromText(chunks[i], respond, parseDate);
      all := all + found;
    }
    assert chunks[..|chunks|] == chunks;
    unique := Dedup(all);
    DedupNamesSound(all);
  }
}
