/** scripts/venue_data/main.py: the single-venue pipeline. The page fetch is `fetch` (it may
    raise), the HTML clean-up is `clean`, the tokenizer is `encode`/`decode`, the language model is
    `respond`, the "%Y-%m-%d" parser is `parseDate` and the clock reading is `now`. */
module VenueMain {
  import opened Wrappers
  import opened Values
  import opened Calendar
  import opened Events
  import opened Store
  import opened VenueStorage
  import TextUtils
  import Extractor

  type Bytes = seq<bv8>

  /** The state after saving the events for each month in turn; a save that raises ends the run. */
  function SaveAll(st: SaveState, venueKey: string, events: seq<Event>, months: seq<string>,
                   outputDir: string, updated: string): SaveState {
    if months == [] then st
    else
      var prev := SaveAll(st, venueKey, events, months[..|months| - 1], outputDir, updated);
      SaveStep(prev, venueKey, events, months[|months| - 1], outputDir, updated)
  }

  /** One more month is one more save step. */
  lemma SaveAllSnoc(st: SaveState, venueKey: string, events: seq<Event>, months: seq<string>, month: string,
                    outputDir: string, updated: string)
    ensures SaveAll(st, venueKey, events, months + [month], outputDir, updated)
      == SaveStep(SaveAll(st, venueKey, events, months, outputDir, updated), venueKey, events, month, outputDir, updated)
  {
    assert (months + [month])[..|months|] == months;
  }

  /** After a failed write the month loop does nothing. */
  lemma {:induction false} SaveAllFrozen(st: SaveState, venueKey: string, events: seq<Event>, months: seq<string>,
                                         outputDir: string, updated: string)
    requires st.failed
    ensures SaveAll(st, venueKey, events, months, outputDir, updated) == st
  {
    if months != [] {
      SaveAllFrozen(st, venueKey, events, months[..|months| - 1], outputDir, updated);
    }
  }

  /** The month loop over two windows is the loop over the first, then over the second. */
  lemma {:induction false} SaveAllAppend(st: SaveState, venueKey: string, events: seq<Event>, a: seq<string>,
                                         b: seq<string>, outputDir: string, updated: string)
    ensures SaveAll(st, venueKey, events, a + b, outputDir, updated)
      == SaveAll(SaveAll(st, venueKey, events, a, outputDir, updated), venueKey, events, b, outputDir, updated)
    decreases |b|
  {
    if b == [] {
      assert a + b == a;
    } else {
      var b', m := b[..|b| - 1], b[|b| - 1];
      assert a + b == (a + b') + [m];
      SaveAllSnoc(st, venueKey, events, a + b', m, outputDir, updated);
      SaveAllAppend(st, venueKey, events, a, b', outputDir, updated);
    }
  }

  /** One more month of a prefix is one more save. */
  lemma SaveAllPrefix(st: SaveState, venueKey: string, events: seq<Event>, months: seq<string>, i: nat,
                      outputDir: string, updated: string)
    requires i < |months|
    ensures SaveAll(st, venueKey, events, months[..i + 1], outputDir, updated)
      == SaveStep(SaveAll(st, venueKey, events, months[..i], outputDir, updated), venueKey, events, months[i], outputDir, updated)
  {
    assert months[..i + 1][..i] == months[..i];
  }

  /** A run that has raised by month i ends there. */
  lemma {:induction false} SaveAllStops(st: SaveState, venueKey: string, events: seq<Event>, months: seq<string>,
                                        i: nat, outputDir: string, updated: string)
    requires i < |months| && SaveAll(st, venueKey, events, months[..i + 1], outputDir, updated).failed
    ensures SaveAll(st, venueKey, events, months, outputDir, updated) == SaveAll(st, venueKey, events, months[..i + 1], outputDir, updated)
    decreases |months| - i
  {
    if i + 1 == |months| {
      assert months[..i + 1] == months;
    } else {
      SaveAllPrefix(st, venueKey, events, months, i + 1, outputDir, updated);
      SaveAllStops(st, venueKey, events, months, i + 1, outputDir, updated);
    }
  }

  /** The month's artist file of the venue holds the month's names from the full event list. */
  predicate MonthFileHolds(files: map<string, Document>, venueKey: string, events: seq<Event>, month: string,
                           outputDir: string, updated: string) {
    var path := ArtistFilePath(VenueOutputDir(outputDir, venueKey), month);
    path in files && files[path] == Doc(ArtistRecord(venueKey, month, MonthArtists(events, month), updated))
  }

  /** When every month key parses, the run returns one file per month of the window, in window
      order, whether or not any event falls in it, and each month's file lists the month's names
      from the full event list; a repeated month rewrites its file with the same record. */
  lemma {:induction false} SaveAllOnePerMonth(st: SaveState, venueKey: string, events: seq<Event>, months: seq<string>,
                                              outputDir: string, updated: string)
    requires !st.failed
    requires forall m :: m in months ==> ParsesAsMonthYear(m)
    ensures var r := SaveAll(st, venueKey, events, months, outputDir, updated);
      !r.failed && |r.outs| == |st.outs| + |months| && r.outs[..|st.outs|] == st.outs
      && forall i :: 0 <= i < |months| ==> r.outs[|st.outs| + i] == ArtistFilePath(VenueOutputDir(outputDir, venueKey), months[i])
    ensures var r := SaveAll(st, venueKey, events, months, outputDir, updated);
      forall i :: 0 <= i < |months| ==> MonthFileHolds(r.files, venueKey, events, months[i], outputDir, updated)
  {
    SaveAllOuts(st, venueKey, events, months, outputDir, updated);
    SaveAllMonthFiles(st, venueKey, events, months, outputDir, updated);
  }

  /** The run returns one path per month of the window, in window order. */
  lemma {:induction false} SaveAllOuts(st: SaveState, venueKey: string, events: seq<Event>, months: seq<string>,
                                       outputDir: string, updated: string)
    requires !st.failed
    requires forall m :: m in months ==> ParsesAsMonthYear(m)
    ensures var r := SaveAll(st, venueKey, events, months, outputDir, updated);
      !r.failed && |r.outs| == |st.outs| + |months| && r.outs[..|st.outs|] == st.outs
      && forall i :: 0 <= i < |months| ==> r.outs[|st.outs| + i] == ArtistFilePath(VenueOutputDir(outputDir, venueKey), months[i])
  {
    if months != [] {
      var init := months[..|months| - 1];
      assert forall x :: x in init ==> x in months;
      SaveAllOuts(st, venueKey, events, init, outputDir, updated);
    }
  }

  /** Each month's file holds its names once the run is over. */
  lemma {:induction false} SaveAllMonthFiles(st: SaveState, venueKey: string, events: seq<Event>, months: seq<string>,
                                             outputDir: string, updated: string)
    requires !st.failed
    requires forall m :: m in months ==> ParsesAsMonthYear(m)
    ensures var r := SaveAll(st, venueKey, events, months, outputDir, updated);
      !r.failed && forall i :: 0 <= i < |months| ==> MonthFileHolds(r.files, venueKey, events, months[i], outputDir, updated)
  {
    if months != [] {
      var init, m := months[..|months| - 1], months[|months| - 1];
      assert forall x :: x in init ==> x in months;
      SaveAllMonthFiles(st, venueKey, events, init, outputDir, updated);
      var prev := SaveAll(st, venueKey, events, init, outputDir, updated);
      assert SaveAll(st, venueKey, events, months, outputDir, updated) == SaveStep(prev, venueKey, events, m, outputDir, updated);
      SaveStepHoldsAll(prev, venueKey, events, init, months, outputDir, updated);
    }
  }

  /** A save of the last month keeps every earlier month's file and writes its own. */
  lemma SaveStepHoldsAll(prev: SaveState, venueKey: string, events: seq<Event>, init: seq<string>, months: seq<string>,
                         outputDir: string, updated: string)
    requires !prev.failed && |months| == |init| + 1 && ParsesAsMonthYear(months[|init|])
    requires forall i :: 0 <= i < |init| ==> init[i] == months[i]
    requires forall i :: 0 <= i < |init| ==> MonthFileHolds(prev.files, venueKey, events, init[i], outputDir, updated)
    ensures var r := SaveStep(prev, venueKey, events, months[|init|], outputDir, updated);
      !r.failed && forall i :: 0 <= i < |months| ==> MonthFileHolds(r.files, venueKey, events, months[i], outputDir, updated)
  {
    var m := months[|init|];
    SaveStepHolds(prev, venueKey, events, m, outputDir, updated, m);
    forall i | 0 <= i < |months|
      ensures MonthFileHolds(SaveStep(prev, venueKey, events, m, outputDir, updated).files, venueKey, events, months[i], outputDir, updated)
    {
      if months[i] != m {
        assert init[i] == months[i];
      }
      SaveStepHolds(prev, venueKey, events, m, outputDir, updated, months[i]);
    }
  }

  /** A save of one month writes that month's file and leaves the file of every other month. */
  lemma SaveStepHolds(prev: SaveState, venueKey: string, events: seq<Event>, m: string,
                      outputDir: string, updated: string, other: string)
    requires !prev.failed && ParsesAsMonthYear(m)
    requires other != m ==> MonthFileHolds(prev.files, venueKey, events, other, outputDir, updated)
    ensures !SaveStep(prev, venueKey, events, m, outputDir, updated).failed
    ensures MonthFileHolds(SaveStep(prev, venueKey, events, m, outputDir, updated).files, venueKey, events, other, outputDir, updated)
  {
    var dir := VenueOutputDir(outputDir, venueKey);
    if other != m && ArtistFilePath(dir, other) == ArtistFilePath(dir, m) {
      ArtistFilePathInjective(dir, other, m);
    }
  }

  /** The days of the thirty-day window keep non-decreasing years. */
  lemma {:induction false} AddDaysYear(d: DateTime, n: nat)
    requires AddDays(d, n).Some?
    ensures AddDays(d, n).value.year >= d.year
    decreases n
  {
    if d.day + n > DaysInMonth(d.year, d.month) {
      var next := FirstOfNextMonth(d).value;
      AddDaysYear(next, n - (DaysInMonth(d.year, d.month) - d.day + 1));
    }
  }

  /** From a four-digit year, every key of the thirty-day window parses as "%B_%Y". */
  lemma WindowKeysParse(now: DateTime, n: int)
    requires 1000 <= now.year && TextUtils.ThirtyDayWindow(now, n).Some?
    ensures forall m :: m in TextUtils.ThirtyDayWindow(now, n).value ==> ParsesAsMonthYear(m)
  {
    var w := TextUtils.ThirtyDayWindow(now, n).value;
    forall m | m in w
      ensures ParsesAsMonthYear(m)
    {
      var i :| 0 <= i < |w| && w[i] == m;
      assert TextUtils.StepsExist(now, n);
      var d := AddDays(now, 30 * i).value;
      AddDaysYear(now, 30 * i);
      MonthKeyParses(d);
    }
  }

  /** The extracted events, chunk by chunk, with repeated names removed. */
  function PageEvents(html: Bytes, clean: Bytes -> string, encode: string -> seq<int>, decode: seq<int> -> string,
                      respond: string -> Option<string>, parseDate: string -> Option<DateTime>): seq<Event> {
    DedupNames(Extractor.AllExtracted(TextUtils.ChunkMessage(clean(html), encode, decode), respond, parseDate))
  }

  /** The month loop of process_venue: one save per month with the full event list; a save that
      raises ends the loop (`failed`). */
  method SaveEachMonth(store: FileStore, venueKey: string, artistEvents: seq<Event>, months: seq<string>,
                       outputDir: string, updated: string) returns (outputFiles: seq<string>, failed: bool)
    modifies store
    ensures SaveAll(SaveState(old(store.files), old(store.dirs), [], false), venueKey, artistEvents, months, outputDir, updated)
      == SaveState(store.files, store.dirs, outputFiles, failed)
  {
    ghost var st0 := SaveState(store.files, store.dirs, [], false);
    outputFiles := [];
    for i := 0 to |months|
      invariant SaveAll(st0, venueKey, artistEvents, months[..i], outputDir, updated)
        == SaveState(store.files, store.dirs, outputFiles, false)
    {
      SaveAllPrefix(st0, venueKey, artistEvents, months, i, outputDir, updated);
      var filename := SaveArtistsToFile(store, venueKey, artistEvents, months[i], outputDir, updated);
      if filename.None? {
        SaveAllStops(st0, venueKey, artistEvents, months, i, outputDir, updated);
        return outputFiles, true;
      }
      outputFiles := outputFiles + [filename.value];
    }
    assert months[..|months|] == months;
    failed := false;
  }

  /** process_venue: fetch, clean, chunk and extract, then one save per month of the window with
      the full event list. Any exception propagates: `None`, with the saves made so far kept. */
  method ProcessVenue(store: FileStore, venueKey: string, outputDir: string, now: DateTime,
                      fetch: string -> Call<Bytes>, clean: Bytes -> string,
                      encode: string -> seq<int>, decode: seq<int> -> string,
                      respond: string -> Option<string>, parseDate: string -> Option<DateTime>,
                      updated: string) returns (r: Option<seq<string>>)
    modifies store
    ensures fetch(venueKey).Raised? || TextUtils.ThirtyDayWindow(now, 3).None? ==>
      r.None? && store.files == old(store.files) && store.dirs == old(store.dirs)
    ensures fetch(venueKey).Returned? && TextUtils.ThirtyDayWindow(now, 3).Some? ==>
      var events := PageEvents(fetch(venueKey).value, clean, encode, decode, respond, parseDate);
      var st := SaveAll(SaveState(old(store.files), old(store.dirs), [], false), venueKey, events,
                        TextUtils.ThirtyDayWindow(now, 3).value, outputDir, updated);
      store.files == st.files && store.dirs == st.dirs && r == (if st.failed then None else Some(st.outs))
  {
    var html := fetch(venueKey);
    if html.Raised? {
      return None;
    }
    var cleanedText := clean(html.value);
    var textChunks := TextUtils.ChunkMessage(cleanedText, encode, decode);
    var artistEvents := Extractor.ProcessChunks(textChunks, respond, parseDate);
    var window := TextUtils.GetNextMonths(now, 3);
    if window.None? {
      return None;
    }
    var outputFiles, failed := SaveEachMonth(store, venueKey, artistEvents, window.value, outputDir, updated);
    if failed {
      return None;
    }
    return Some(outputFiles);
  }
}
