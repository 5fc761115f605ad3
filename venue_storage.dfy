/** scripts/venue_data/storage.py: one YAML file of artist names per venue and month, and the
    loader of the venue configuration. */
module VenueStorage {
  import opened Wrappers
  import opened Strings
  import opened Values
  import opened Calendar
  import opened Events
  import opened Store

  /** get_venue_output_dir's path: `{base_dir}/{venue_key}`. */
  function VenueOutputDir(baseDir: string, venueKey: string): string {
    baseDir + "/" + venueKey
  }

  /** `{venue_dir}/artists_{month}.yaml` */
  function ArtistFilePath(venueDir: string, month: string): string {
    venueDir + "/artists_" + month + ".yaml"
  }

  /** get_venue_output_dir: the venue's directory, created if missing. */
  method GetVenueOutputDir(store: FileStore, venueKey: string, baseDir: string) returns (dir: string)
    modifies store
    ensures dir == VenueOutputDir(baseDir, venueKey)
    ensures store.dirs == old(store.dirs) + DirChain(dir) && store.files == old(store.files)
  {
    dir := VenueOutputDir(baseDir, venueKey);
    store.MakeDirs(dir);
  }

  /** The event falls in the month the key names: its "%B_%Y" equals the key, ignoring case. */
  predicate InMonth(e: Event, month: string) {
    Lower(FormatMonthYear(e.date)) == Lower(month)
  }

  /** The names of the events in the month, in event order, repeated names included. */
  function MonthArtists(events: seq<Event>, month: string): seq<string> {
    if events == [] then []
    else
      var last := events[|events| - 1];
      MonthArtists(events[..|events| - 1], month) + (if InMonth(last, month) then [last.name] else [])
  }

  /** A name is listed exactly when some event of that name falls in the month. */
  lemma {:induction false} MonthArtistsMembers(events: seq<Event>, month: string, n: string)
    ensures n in MonthArtists(events, month) <==> exists e :: e in events && e.name == n && InMonth(e, month)
  {
    if events != [] {
      var init := events[..|events| - 1];
      MonthArtistsMembers(init, month, n);
      assert events == init + [events[|events| - 1]];
      if exists e :: e in events && e.name == n && InMonth(e, month) {
        var e :| e in events && e.name == n && InMonth(e, month);
        if e != events[|events| - 1] {
          assert e in init;
        }
      }
    }
  }

  /** The filter works event by event: the names for two lists one after the other are the names
      for each, one after the other; in particular nothing removes repeated names. */
  lemma {:induction false} MonthArtistsAppend(a: seq<Event>, b: seq<Event>, month: string)
    ensures MonthArtists(a + b, month) == MonthArtists(a, month) + MonthArtists(b, month)
    decreases |b|
  {
    if b == [] {
      assert a + b == a;
    } else {
      var b' := b[..|b| - 1];
      assert (a + b)[..|a + b| - 1] == a + b';
      assert (a + b)[|a + b| - 1] == b[|b| - 1];
      MonthArtistsAppend(a, b', month);
    }
  }

  /** The YAML record save_artists_to_file writes, keys in this order. */
  function ArtistRecord(venueName: string, month: string, artists: seq<string>, updated: string): Value {
    Object([("venue", Str(venueName)), ("month", Str(month)), ("artists", StrList(artists)), ("updated", Str(updated))])
  }

  /** save_artists_to_file. The directory is created first; the month key must then parse as
      "%B_%Y" or the call raises a `ValueError` (`None`) and writes no file. `updated` is the
      time of the call in ISO format. */
  method SaveArtistsToFile(store: FileStore, venueName: string, events: seq<Event>, month: string,
                           outputDir: string, updated: string) returns (r: Option<string>)
    modifies store
    ensures store.dirs == old(store.dirs) + DirChain(VenueOutputDir(outputDir, venueName))
    ensures r.Some? <==> ParsesAsMonthYear(month)
    ensures r.Some? ==> r.value == ArtistFilePath(VenueOutputDir(outputDir, venueName), month)
    ensures r.Some? ==> store.files == old(store.files)[r.value :=
      Doc(ArtistRecord(venueName, month, MonthArtists(events, month), updated))]
    ensures r.None? ==> store.files == old(store.files)
  {
    var venueDir := GetVenueOutputDir(store, venueName, outputDir);
    var filename := ArtistFilePath(venueDir, month);
    if !ParsesAsMonthYear(month) {
      return None;
    }
    var monthArtists := MonthArtists(events, month);
    store.Write(filename, Doc(ArtistRecord(venueName, month, monthArtists, updated)));
    return Some(filename);
  }

  /** load_venue_config: the parsed document, or an empty dict when the file is missing or does
      not parse. An empty file parses as `None`. */
  function LoadVenueConfig(files: map<string, Document>, configPath: string): Value {
    if configPath !in files then Object([])
    else match files[configPath]
      case Malformed => Object([])
      case Doc(v) => v
  }

  /** A configuration written to the file store loads back as the document written, and a write
      to any other path leaves the loaded configuration as it was. */
  lemma VenueConfigOfWrite(files: map<string, Document>, configPath: string, path: string, doc: Document)
    ensures doc.Doc? ==> LoadVenueConfig(files[configPath := doc], configPath) == doc.value
    ensures doc.Malformed? ==> LoadVenueConfig(files[configPath := doc], configPath) == Object([])
    ensures path != configPath ==> LoadVenueConfig(files[path := doc], configPath) == LoadVenueConfig(files, configPath)
  {
  }

  /** The writer's side of a run of saves: the files and directories so far, the paths returned so
      far, and whether a save has raised, which ends the run. */
  datatype SaveState = SaveState(files: map<string, Document>, dirs: set<string>, outs: seq<string>, failed: bool)

  /** One more save_artists_to_file call, as SaveArtistsToFile performs it. */
  function SaveStep(st: SaveState, venueName: string, events: seq<Event>, month: string,
                    outputDir: string, updated: string): SaveState {
    if st.failed then st
    else
      var dir := VenueOutputDir(outputDir, venueName);
      if ParsesAsMonthYear(month) then
        var path := ArtistFilePath(dir, month);
        SaveState(st.files[path := Doc(ArtistRecord(venueName, month, MonthArtists(events, month), updated))],
                  st.dirs + DirChain(dir), st.outs + [path], false)
      else SaveState(st.files, st.dirs + DirChain(dir), st.outs, true)
  }

  /** Different months of one venue are written to different files. */
  lemma ArtistFilePathInjective(dir: string, m1: string, m2: string)
    requires ArtistFilePath(dir, m1) == ArtistFilePath(dir, m2)
    ensures m1 == m2
  {
    var p, p1, p2 := dir + "/artists_", ArtistFilePath(dir, m1), ArtistFilePath(dir, m2);
    assert p1 == p + m1 + ".yaml" && p2 == p + m2 + ".yaml";
    assert |m1| == |m2|;
    assert m1 == p1[|p|..|p| + |m1|];
    assert m2 == p2[|p|..|p| + |m2|];
  }

  /** Names kept once stay listed once: the month's list of events without repeated names has no
      repeated name. */
  lemma {:induction false} MonthArtistsNoDup(events: seq<Event>, month: string)
    requires NoDupNames(events)
    ensures var names := MonthArtists(events, month);
      forall i, j :: 0 <= i < j < |names| ==> names[i] != names[j]
  {
    if events != [] {
      var init, last := events[..|events| - 1], events[|events| - 1];
      assert NoDupNames(init);
      MonthArtistsNoDup(init, month);
      if InMonth(last, month) {
        var names := MonthArtists(init, month);
        forall i | 0 <= i < |names|
          ensures names[i] != last.name
        {
          MonthArtistsMembers(init, month, names[i]);
          var e :| e in init && e.name == names[i] && InMonth(e, month);
          var k :| 0 <= k < |init| && init[k] == e;
          assert events[k] == e;
        }
      }
    }
  }

  /** The last four characters of a date's lower-cased "%B_%Y" are its four-digit year. */
  lemma KeyYearSuffix(d: DateTime)
    requires 1000 <= d.year
    ensures var k := Lower(FormatMonthYear(d)); |k| >= 4 && k[|k| - 4..] == NatToString(d.year)
  {
    var name, digits := MonthName(d.month), NatToString(d.year);
    FourDigitYear(d.year);
    LowerAppend(name + "_", digits);
    LowerDigits(digits);
  }

  /** An event is in the month of a key only if it has the key's year. */
  lemma InMonthSameYear(e: Event, d: DateTime)
    requires 1000 <= e.date.year && 1000 <= d.year
    requires InMonth(e, MonthKey(d))
    ensures e.date.year == d.year
  {
    LowerIdempotent(FormatMonthYear(d));
    KeyYearSuffix(e.date);
    KeyYearSuffix(d);
    FourDigitYear(e.date.year);
    FourDigitYear(d.year);
  }
}
