/** scripts/venue_data/venue_processor.py: one venue's events split into the months of the window,
    repeated names removed within each month, and one artist file written per month that has
    events. The venue map is an input (the loaded configuration's venues), the scraper's
    `get_events` is `getEvents`, and the clock reading that fixes the window is `now`. */
module VenueProcessor {
  import opened Wrappers
  import opened Strings
  import opened Values
  import opened Calendar
  import opened Events
  import opened Store
  import opened VenueStorage
  import opened ScraperFactory
  import TextUtils

  /** A call `process_venue(key, output_dir=dir, force=force)` as the city scripts make it. */
  datatype VenueCall = VenueCall(key: string, outputDir: string, force: bool)

  /** The month name of the event, lower-cased, equals the key's text before its first "_",
      lower-cased; the year plays no part. */
  predicate InBucket(e: Event, month: string) {
    Lower(MonthName(e.date.month)) == Lower(FirstPiece(month, '_'))
  }

  /** `month_events`: the events of the month's bucket, in event order. */
  function MonthBucket(events: seq<Event>, month: string): seq<Event> {
    if events == [] then []
    else
      var last := events[|events| - 1];
      MonthBucket(events[..|events| - 1], month) + (if InBucket(last, month) then [last] else [])
  }

  /** An event is in the bucket exactly when its month name matches the key's. */
  lemma {:induction false} MonthBucketMembers(events: seq<Event>, month: string, e: Event)
    ensures e in MonthBucket(events, month) <==> e in events && InBucket(e, month)
  {
    if events != [] {
      var init := events[..|events| - 1];
      MonthBucketMembers(init, month, e);
      assert events == init + [events[|events| - 1]];
    }
  }

  /** The bucket is no longer than the events and holds only events of the key's month name. */
  lemma {:induction false} MonthBucketBounded(events: seq<Event>, month: string)
    ensures |MonthBucket(events, month)| <= |events|
    ensures forall e :: e in MonthBucket(events, month) ==> InBucket(e, month)
  {
    if events != [] {
      var init := events[..|events| - 1];
      MonthBucketBounded(init, month);
    }
  }

  /** A month key of a date places exactly the events of that calendar month, of every year, in
      its bucket. */
  lemma KeyBucket(e: Event, d: DateTime)
    ensures InBucket(e, MonthKey(d)) <==> e.date.month == d.month
  {
    var name := MonthName(d.month);
    LowerAppend(name, "_");
    LowerAppend(name + "_", NatToString(d.year));
    var lname := Lower(name);
    assert MonthKey(d) == lname + ['_'] + Lower(NatToString(d.year));
    MonthNameNoUnderscore(d.month);
    FirstPieceOfAppend(lname, '_', Lower(NatToString(d.year)));
    LowerIdempotent(name);
    if e.date.month != d.month {
      MonthNamesDistinct(e.date.month, d.month);
    }
  }

  /** A lower-cased month name has no `_`. */
  lemma MonthNameNoUnderscore(m: int)
    requires 1 <= m <= 12
    ensures '_' !in Lower(MonthName(m))
  {
    var name := MonthName(m);
    assert forall i :: 0 <= i < |name| ==> IsAlpha(name[i]);
  }

  /** Different months have different names, whatever the letter case. */
  lemma MonthNamesDistinct(m1: int, m2: int)
    requires 1 <= m1 <= 12 && 1 <= m2 <= 12 && m1 != m2
    ensures Lower(MonthName(m1)) != Lower(MonthName(m2))
  {
    var a, b := MonthName(m1), MonthName(m2);
    if |a| == |b| {
      assert LowerChar(a[0]) != LowerChar(b[0]) || LowerChar(a[2]) != LowerChar(b[2]);
    }
  }

  /** One month of the loop: a month with events gets its file, written from the bucket without
      repeated names. */
  function PartitionStep(st: SaveState, venueKey: string, events: seq<Event>, month: string,
                         outputDir: string, updated: string): SaveState {
    var bucket := MonthBucket(events, month);
    if bucket == [] then st else SaveStep(st, venueKey, DedupNames(bucket), month, outputDir, updated)
  }

  /** The state after the loop has gone through the months. */
  function Partition(st: SaveState, venueKey: string, events: seq<Event>, months: seq<string>,
                     outputDir: string, updated: string): SaveState {
    if months == [] then st
    else
      var prev := Partition(st, venueKey, events, months[..|months| - 1], outputDir, updated);
      PartitionStep(prev, venueKey, events, months[|months| - 1], outputDir, updated)
  }

  /** One more month is one more partition step. */
  lemma PartitionSnoc(st: SaveState, venueKey: string, events: seq<Event>, months: seq<string>, month: string,
                      outputDir: string, updated: string)
    ensures Partition(st, venueKey, events, months + [month], outputDir, updated)
      == PartitionStep(Partition(st, venueKey, events, months, outputDir, updated), venueKey, events, month, outputDir, updated)
  {
    assert (months + [month])[..|months|] == months;
  }

  /** One more month of a prefix is one more step. */
  lemma PartitionPrefix(st: SaveState, venueKey: string, events: seq<Event>, months: seq<string>, i: nat,
                        outputDir: string, updated: string)
    requires i < |months|
    ensures Partition(st, venueKey, events, months[..i + 1], outputDir, updated)
      == PartitionStep(Partition(st, venueKey, events, months[..i], outputDir, updated), venueKey, events, months[i], outputDir, updated)
  {
    assert months[..i + 1][..i] == months[..i];
  }

  /** Once a save has raised, the remaining months change nothing. */
  lemma {:induction false} PartitionFrozen(st: SaveState, venueKey: string, events: seq<Event>, months: seq<string>,
                                           outputDir: string, updated: string)
    requires st.failed
    ensures Partition(st, venueKey, events, months, outputDir, updated) == st
  {
    if months != [] {
      PartitionFrozen(st, venueKey, events, months[..|months| - 1], outputDir, updated);
    }
  }

  /** Going through two runs of months is going through the first, then the second. */
  lemma {:induction false} PartitionAppend(st: SaveState, venueKey: string, events: seq<Event>, a: seq<string>,
                                           b: seq<string>, outputDir: string, updated: string)
    ensures Partition(st, venueKey, events, a + b, outputDir, updated)
      == Partition(Partition(st, venueKey, events, a, outputDir, updated), venueKey, events, b, outputDir, updated)
    decreases |b|
  {
    if b == [] {
      assert a + b == a;
    } else {
      var b', m := b[..|b| - 1], b[|b| - 1];
      assert a + b == (a + b') + [m];
      PartitionSnoc(st, venueKey, events, a + b', m, outputDir, updated);
      PartitionAppend(st, venueKey, events, a, b', outputDir, updated);
    }
  }

  /** The months whose bucket is not empty, in window order. */
  function BusyMonths(events: seq<Event>, months: seq<string>): seq<string> {
    if months == [] then []
    else
      var m := months[|months| - 1];
      BusyMonths(events, months[..|months| - 1]) + (if MonthBucket(events, m) == [] then [] else [m])
  }

  /** When every month key parses, the loop returns one file per busy month, in window order. */
  lemma {:induction false} PartitionOutputs(st: SaveState, venueKey: string, events: seq<Event>, months: seq<string>,
                                            outputDir: string, updated: string)
    requires !st.failed
    requires forall m :: m in months ==> ParsesAsMonthYear(m)
    ensures var r := Partition(st, venueKey, events, months, outputDir, updated);
      !r.failed && r.outs == st.outs + PathsOf(VenueOutputDir(outputDir, venueKey), BusyMonths(events, months))
  {
    if months != [] {
      var init, m := months[..|months| - 1], months[|months| - 1];
      assert forall x :: x in init ==> x in months;
      PartitionOutputs(st, venueKey, events, init, outputDir, updated);
      var dir := VenueOutputDir(outputDir, venueKey);
      var busy := BusyMonths(events, init);
      if MonthBucket(events, m) != [] {
        PathsOfSnoc(dir, busy, m);
      } else {
        assert busy + [] == busy;
      }
    }
  }

  /** The artist file paths of the months. */
  function PathsOf(dir: string, months: seq<string>): (r: seq<string>)
  {
    seq(|months|, i requires 0 <= i < |months| => ArtistFilePath(dir, months[i]))
  }

  /** One more month adds its file path at the end. */
  lemma PathsOfSnoc(dir: string, months: seq<string>, m: string)
    ensures PathsOf(dir, months + [m]) == PathsOf(dir, months) + [ArtistFilePath(dir, m)]
  {
  }

  /** Distinct months give distinct paths: the returned list names no file twice. */
  lemma PathsOfDistinct(dir: string, months: seq<string>)
    requires forall i, j :: 0 <= i < j < |months| ==> months[i] != months[j]
    ensures forall i, j :: 0 <= i < j < |months| ==> PathsOf(dir, months)[i] != PathsOf(dir, months)[j]
  {
    forall i, j | 0 <= i < j < |months|
      ensures PathsOf(dir, months)[i] != PathsOf(dir, months)[j]
    {
      if ArtistFilePath(dir, months[i]) == ArtistFilePath(dir, months[j]) {
        ArtistFilePathInjective(dir, months[i], months[j]);
      }
    }
  }

  /** A loop that has raised by month i ends there. */
  lemma {:induction false} PartitionStops(st: SaveState, venueKey: string, events: seq<Event>, months: seq<string>,
                                          i: nat, outputDir: string, updated: string)
    requires i < |months| && Partition(st, venueKey, events, months[..i + 1], outputDir, updated).failed
    ensures Partition(st, venueKey, events, months, outputDir, updated) == Partition(st, venueKey, events, months[..i + 1], outputDir, updated)
    decreases |months| - i
  {
    if i + 1 == |months| {
      assert months[..i + 1] == months;
    } else {
      PartitionPrefix(st, venueKey, events, months, i + 1, outputDir, updated);
      PartitionStops(st, venueKey, events, months, i + 1, outputDir, updated);
    }
  }

  /** The file of a busy month holds the names of its bucket once each, in first-seen order. A
      later month of another name leaves it alone, and a repeat of the same month (the thirty-day
      window can repeat one) rewrites it with the same record. */
  lemma {:induction false} PartitionWritesMonth(st: SaveState, venueKey: string, events: seq<Event>, months: seq<string>,
                                                outputDir: string, updated: string, k: int)
    requires !st.failed
    requires forall m :: m in months ==> ParsesAsMonthYear(m)
    requires 0 <= k < |months| && MonthBucket(events, months[k]) != []
    ensures var r := Partition(st, venueKey, events, months, outputDir, updated);
      var path := ArtistFilePath(VenueOutputDir(outputDir, venueKey), months[k]);
      path in r.files
      && r.files[path] == Doc(ArtistRecord(venueKey, months[k], MonthArtists(DedupNames(MonthBucket(events, months[k])), months[k]), updated))
  {
    var init, m := months[..|months| - 1], months[|months| - 1];
    var dir := VenueOutputDir(outputDir, venueKey);
    assert forall x :: x in init ==> x in months;
    PartitionStaysOk(st, venueKey, events, init, outputDir, updated);
    var prev := Partition(st, venueKey, events, init, outputDir, updated);
    assert Partition(st, venueKey, events, months, outputDir, updated) == PartitionStep(prev, venueKey, events, m, outputDir, updated);
    if m == months[k] {
      PartitionStepWrites(prev, venueKey, events, m, outputDir, updated);
    } else {
      assert init[k] == months[k];
      PartitionWritesMonth(st, venueKey, events, init, outputDir, updated, k);
      PartitionStepKeeps(prev, venueKey, events, m, outputDir, updated, months[k]);
    }
  }

  /** The loop does not stop on months that parse. */
  lemma {:induction false} PartitionStaysOk(st: SaveState, venueKey: string, events: seq<Event>, months: seq<string>,
                                            outputDir: string, updated: string)
    requires !st.failed
    requires forall m :: m in months ==> ParsesAsMonthYear(m)
    ensures !Partition(st, venueKey, events, months, outputDir, updated).failed
  {
    if months != [] {
      var init := months[..|months| - 1];
      assert forall x :: x in init ==> x in months;
      PartitionStaysOk(st, venueKey, events, init, outputDir, updated);
    }
  }

  /** A busy month's step writes the month's artist file. */
  lemma PartitionStepWrites(prev: SaveState, venueKey: string, events: seq<Event>, month: string,
                            outputDir: string, updated: string)
    requires !prev.failed && ParsesAsMonthYear(month) && MonthBucket(events, month) != []
    ensures var files := PartitionStep(prev, venueKey, events, month, outputDir, updated).files;
      var path := ArtistFilePath(VenueOutputDir(outputDir, venueKey), month);
      path in files
      && files[path] == Doc(ArtistRecord(venueKey, month, MonthArtists(DedupNames(MonthBucket(events, month)), month), updated))
  {
  }

  /** A step leaves the artist file of every other month as it was. */
  lemma PartitionStepKeeps(prev: SaveState, venueKey: string, events: seq<Event>, month: string,
                           outputDir: string, updated: string, other: string)
    requires !prev.failed && ParsesAsMonthYear(month) && month != other
    requires ArtistFilePath(VenueOutputDir(outputDir, venueKey), other) in prev.files
    ensures var path := ArtistFilePath(VenueOutputDir(outputDir, venueKey), other);
      var files := PartitionStep(prev, venueKey, events, month, outputDir, updated).files;
      path in files && files[path] == prev.files[path]
  {
    var dir := VenueOutputDir(outputDir, venueKey);
    if ArtistFilePath(dir, month) == ArtistFilePath(dir, other) {
      ArtistFilePathInjective(dir, month, other);
      assert false;
    }
  }

  /** The names written for a month are distinct. */
  lemma WrittenNamesDistinct(events: seq<Event>, month: string)
    ensures var names := MonthArtists(DedupNames(MonthBucket(events, month)), month);
      forall i, j :: 0 <= i < j < |names| ==> names[i] != names[j]
  {
    DedupNamesSound(MonthBucket(events, month));
    MonthArtistsNoDup(DedupNames(MonthBucket(events, month)), month);
  }

  /** The bucket ignores the year but the record keeps only the key's year, and repeated names are
      removed in between: an artist who also played the same month of another year, earlier in
      the list, is left out of the month's file. */
  lemma EarlierYearHidesArtist(e1: Event, e2: Event)
    requires e1.name == e2.name && e1.date.month == e2.date.month && e1.date.year != e2.date.year
    requires 1000 <= e1.date.year && 1000 <= e2.date.year
    ensures MonthBucket([e1, e2], MonthKey(e2.date)) == [e1, e2]
    ensures MonthArtists(DedupNames(MonthBucket([e1, e2], MonthKey(e2.date))), MonthKey(e2.date)) == []
    ensures MonthArtists([e2], MonthKey(e2.date)) == [e2.name]
  {
    var key := MonthKey(e2.date);
    BucketOfTwo(e1, e2);
    assert DedupNames([e1]) == [e1];
    assert DedupNames([e1, e2]) == [e1];
    if InMonth(e1, key) {
      InMonthSameYear(e1, e2.date);
    }
    LowerIdempotent(FormatMonthYear(e2.date));
    assert InMonth(e2, key);
  }

  /** Two events of the same month, of any years, both fall in the later one's bucket. */
  lemma BucketOfTwo(e1: Event, e2: Event)
    requires e1.date.month == e2.date.month && 1000 <= e1.date.year && 1000 <= e2.date.year
    ensures MonthBucket([e1, e2], MonthKey(e2.date)) == [e1, e2]
  {
    KeyBucket(e1, e2.date);
    KeyBucket(e2, e2.date);
    assert [e1, e2][..1] == [e1];
    assert MonthBucket([e1], MonthKey(e2.date)) == [e1];
  }

  /** The scraper's events for the venue: `None` when no scraper can be chosen or its call raises. */
  function Fetched(chosen: Result<ScraperKind, FactoryError>, getEvents: (ScraperKind, string, Value) -> Call<seq<Event>>,
                   venueKey: string, venueInfo: Value): Option<seq<Event>> {
    match chosen
    case Err(_) => None
    case Ok(kind) =>
      match getEvents(kind, venueKey, venueInfo)
      case Raised => None
      case Returned(es) => Some(es)
  }

  /** The month loop of process_venue: each month's bucket, with repeated names removed, is saved;
      a save that raises ends the loop (`failed`). */
  method PartitionByMonth(store: FileStore, venueKey: string, artistEvents: seq<Event>, months: seq<string>,
                          outputDir: string, updated: string) returns (outputFiles: seq<string>, failed: bool)
    modifies store
    ensures Partition(SaveState(old(store.files), old(store.dirs), [], false), venueKey, artistEvents, months, outputDir, updated)
      == SaveState(store.files, store.dirs, outputFiles, failed)
  {
    ghost var st0 := SaveState(store.files, store.dirs, [], false);
    outputFiles := [];
    for i := 0 to |months|
      invariant Partition(st0, venueKey, artistEvents, months[..i], outputDir, updated)
        == SaveState(store.files, store.dirs, outputFiles, false)
    {
      var month := months[i];
      PartitionPrefix(st0, venueKey, artistEvents, months, i, outputDir, updated);
      var monthEvents := MonthBucket(artistEvents, month);
      if monthEvents != [] {
        var unique := Dedup(monthEvents);
        var filename := SaveArtistsToFile(store, venueKey, unique, month, outputDir, updated);
        if filename.None? {
          PartitionStops(st0, venueKey, artistEvents, months, i, outputDir, updated);
          return outputFiles, true;
        }
        outputFiles := outputFiles + [filename.value];
      }
    }
    assert months[..|months|] == months;
    failed := false;
  }

  /** process_venue. An unknown venue, a failed scraper choice or scrape, no events or a window
      that cannot be computed return no files and write nothing; otherwise each month of the
      three-month window is handled in turn, and a save that raises makes the whole call return
      no files (the writes before it and its directory stay). `force` is never read. */
  method ProcessVenue(store: FileStore, factory: Factory, venueKey: string, venues: Fields,
                      getEvents: (ScraperKind, string, Value) -> Call<seq<Event>>, now: DateTime,
                      outputDir: string, force: bool, updated: string) returns (outputFiles: seq<string>)
    modifies store
    ensures var info := Lookup(venues, venueKey);
      var fetched := if info.None? then None else Fetched(factory.GetScraperForVenue(info.value), getEvents, venueKey, info.value);
      var window := TextUtils.ThirtyDayWindow(now, 3);
      if fetched.None? || fetched.value == [] || window.None? then
        outputFiles == [] && store.files == old(store.files) && store.dirs == old(store.dirs)
      else
        var r := Partition(SaveState(old(store.files), old(store.dirs), [], false), venueKey, fetched.value, window.value,
                           outputDir, updated);
        store.files == r.files && store.dirs == r.dirs && outputFiles == (if r.failed then [] else r.outs)
  {
    var info := Lookup(venues, venueKey);
    if info.None? {
      return [];
    }
    var chosen := factory.GetScraperForVenue(info.value);
    if chosen.Err? {
      return [];
    }
    var got := getEvents(chosen.value, venueKey, info.value);
    if got.Raised? {
      return [];
    }
    var artistEvents := got.value;
    if artistEvents == [] {
      return [];
    }
    var window := TextUtils.GetNextMonths(now, 3);
    if window.None? {
      return [];
    }
    var failed;
    outputFiles, failed := PartitionByMonth(store, venueKey, artistEvents, window.value, outputDir, updated);
    if failed {
      outputFiles := [];
    }
  }
}
