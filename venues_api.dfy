/** venue_playlists_api/venues.py: the read side behind `GET /api/venues`. Every city directory's
    `venues.yaml` is read, every well-formed venue is emitted with the months whose playlist file
    exists and whose URL is not marked `[TEST]`, and the errors become the route's status codes.
    The file system is read only: the files, the directories and the base directory's listing are
    values. */
module VenuesApi {
  import opened Wrappers
  import opened Strings
  import opened Values
  import opened PlaylistStorage
  import Seqs
  import Calendar
  import TextUtils

  /** The marker of a test playlist in a URL. */
  const TEST_MARK := "[TEST]"

  /** What load_venues ends with: the output document, or the error that escapes it. */
  datatype LoadResult =
    | Loaded(output: Value)
    | MissingDir     // the `FileNotFoundError` of a base directory that does not exist
    | BadYaml        // the `ValueError` a `venues.yaml` that does not parse becomes
    | Failed         // any other exception; here, a base path that exists but is not a directory

  /** A route reply: the status code and the JSON body. */
  datatype Response = Response(status: int, body: Value)

  /** The playlist URL a month's playlist file shows: the file exists, parses to a dict, and
      holds a `playlist_url` that `"[TEST]" in` answers false for. Every other case is skipped:
      a missing file, or an exception caught per month (a parse error, a document that is not a
      dict, a URL that is not text, a list or a dict, or no `playlist_url` at all, which passes
      the `[TEST]` test through its `""` default and then raises at `data["playlist_url"]`). */
  function ShownUrl(files: map<string, Document>, path: string): Option<Value> {
    if path !in files then None
    else match files[path]
      case Malformed => None
      case Doc(data) =>
        if !data.Object? then None
        else
          var url := Lookup(data.fields, "playlist_url");
          var tested := if url.None? then Str("") else url.value;
          if PyIn(TEST_MARK, tested) != Some(false) || url.None? then None
          else url
  }

  /** The month entry `{"playlist_url": url}`. */
  function MonthEntry(url: Value): Value {
    Object([("playlist_url", url)])
  }

  /** `venue_data["months"]` after the month loop, months in window order. */
  function MonthsOf(files: map<string, Document>, cityDir: string, venueKey: string, months: seq<string>): Fields
    decreases |months|
  {
    if months == [] then []
    else
      var prev := MonthsOf(files, cityDir, venueKey, months[..|months| - 1]);
      var month := months[|months| - 1];
      match ShownUrl(files, PlaylistFilePath(cityDir, venueKey, month))
      case None => prev
      case Some(url) => Put(prev, month, MonthEntry(url))
  }

  /** A venue's output entry; `None` for an entry that is not a dict or has no `name`, and for
      every entry when the month window raises (`window == None`): get_next_months runs inside
      the per-venue `try`, so its `ValueError` skips the venue. */
  function VenueData(files: map<string, Document>, cityDir: string, venueKey: string, info: Value, window: Option<seq<string>>): (r: Option<Value>)
    ensures r.Some? <==> info.Object? && "name" in Keys(info.fields) && window.Some?
  {
    if !info.Object? then None
    else match Lookup(info.fields, "name")
      case None => None
      case Some(name) =>
        var description := match Lookup(info.fields, "description") case None => Str("") case Some(d) => d;
        if window.None? then None
        else Some(Object([("name", name), ("description", description), ("months", Object(MonthsOf(files, cityDir, venueKey, window.value)))]))
  }

  /** The venue loop of one city, from the output so far. */
  function CityVenues(acc: Fields, files: map<string, Document>, cityDir: string, venues: Fields, window: Option<seq<string>>): Fields
    decreases |venues|
  {
    if venues == [] then acc
    else
      var prev := CityVenues(acc, files, cityDir, venues[..|venues| - 1], window);
      var last := venues[|venues| - 1];
      match VenueData(files, cityDir, last.0, last.1, window)
      case None => prev
      case Some(data) => Put(prev, last.0, data)
  }

  /** What a city's `venues.yaml` gives. */
  datatype CityConfig =
    | Skip                  // no file, an empty document, no `venues` key, or an exception caught for the city
    | Unparsed              // the YAML error that is re-raised as `ValueError`
    | Venues(venues: Fields)

  /** The city's configuration. A document that `'venues' in` cannot test, whose `['venues']`
      raises, or whose `venues` has no `.items()` raises an exception the city handler catches. */
  function ReadCity(files: map<string, Document>, cityDir: string): CityConfig {
    var path := cityDir + "/venues.yaml";
    if path !in files then Skip
    else match files[path]
      case Malformed => Unparsed
      case Doc(v) =>
        if !Truthy(v) || PyIn("venues", v) != Some(true) then Skip
        else match Index(v, "venues")
          case None => Skip
          case Some(vs) => if vs.Object? then Venues(vs.fields) else Skip
  }

  /** The city loop over the base directory's listing; `None` once a `ValueError` escaped. */
  function AllCities(acc: Option<Fields>, files: map<string, Document>, dirs: set<string>, baseDir: string,
                     entries: seq<string>, window: Option<seq<string>>): Option<Fields>
    decreases |entries|
  {
    if entries == [] then acc
    else
      var prev := AllCities(acc, files, dirs, baseDir, entries[..|entries| - 1], window);
      var cityDir := baseDir + "/" + entries[|entries| - 1];
      if prev.None? || cityDir !in dirs then prev
      else match ReadCity(files, cityDir)
        case Skip => prev
        case Unparsed => None
        case Venues(vs) => Some(CityVenues(prev.value, files, cityDir, vs, window))
  }

  /** load_venues: the base directory must exist; `now` is the `last_updated` time. */
  function LoadOutcome(files: map<string, Document>, dirs: set<string>, baseDir: string, entries: seq<string>,
                       window: Option<seq<string>>, now: string): LoadResult
  {
    if baseDir !in dirs && baseDir !in files then MissingDir
    else if baseDir !in dirs then Failed
    else match AllCities(Some([]), files, dirs, baseDir, entries, window)
      case None => BadYaml
      case Some(venues) => Loaded(Object([("venues", Object(venues)), ("last_updated", Str(now))]))
  }

  /** get_venues: the output with 200, or the error body with 503 or 500. */
  function GetVenues(r: LoadResult): Response {
    match r
    case Loaded(output) => Response(200, output)
    case MissingDir => Response(503, Object([("error", Str("Venue data not available"))]))
    case BadYaml => Response(500, Object([("error", Str("Invalid venue data format"))]))
    case Failed => Response(500, Object([("error", Str("Internal server error"))]))
  }

  /** The month loop of a venue. */
  method LoadMonths(files: map<string, Document>, cityDir: string, venueKey: string, months: seq<string>)
    returns (entries: Fields)
    ensures entries == MonthsOf(files, cityDir, venueKey, months)
  {
    entries := [];
    for i := 0 to |months|
      invariant entries == MonthsOf(files, cityDir, venueKey, months[..i])
    {
      assert months[..i + 1][..i] == months[..i];
      var url := ShownUrl(files, PlaylistFilePath(cityDir, venueKey, months[i]));
      if url.Some? {
        entries := Put(entries, months[i], MonthEntry(url.value));
      }
    }
    assert months[..|months|] == months;
  }

  /** The venue loop of a city. */
  method LoadCity(acc: Fields, files: map<string, Document>, cityDir: string, venues: Fields, window: Option<seq<string>>)
    returns (out: Fields)
    ensures out == CityVenues(acc, files, cityDir, venues, window)
  {
    out := acc;
    for i := 0 to |venues|
      invariant out == CityVenues(acc, files, cityDir, venues[..i], window)
    {
      assert venues[..i + 1][..i] == venues[..i];
      var (venueKey, info) := venues[i];
      if info.Object? && Lookup(info.fields, "name").Some? && window.Some? {
        var description := match Lookup(info.fields, "description") case None => Str("") case Some(d) => d;
        var monthEntries := LoadMonths(files, cityDir, venueKey, window.value);
        out := Put(out, venueKey, Object([("name", Lookup(info.fields, "name").value), ("description", description),
          ("months", Object(monthEntries))]));
      }
    }
    assert venues[..|venues|] == venues;
  }

  /** load_venues over the base directory's listing `entries`. */
  method LoadVenues(files: map<string, Document>, dirs: set<string>, baseDir: string, entries: seq<string>,
                    window: Option<seq<string>>, now: string)
    returns (r: LoadResult)
    ensures r == LoadOutcome(files, dirs, baseDir, entries, window, now)
  {
    if baseDir !in dirs && baseDir !in files {
      return MissingDir;
    }
    if baseDir !in dirs {
      return Failed;
    }
    var out: Fields := [];
    for i := 0 to |entries|
      invariant AllCities(Some([]), files, dirs, baseDir, entries[..i], window) == Some(out)
    {
      assert entries[..i + 1][..i] == entries[..i];
      var cityDir := baseDir + "/" + entries[i];
      if cityDir in dirs {
        var config := ReadCity(files, cityDir);
        if config.Unparsed? {
          AllCitiesStaysFailed(files, dirs, baseDir, entries, window, i + 1);
          return BadYaml;
        }
        if config.Venues? {
          out := LoadCity(out, files, cityDir, config.venues, window);
        }
      }
    }
    assert entries[..|entries|] == entries;
    r := Loaded(Object([("venues", Object(out)), ("last_updated", Str(now))]));
  }

  /** Once a `ValueError` has escaped, no later city changes that. */
  lemma {:induction false} AllCitiesStaysFailed(files: map<string, Document>, dirs: set<string>, baseDir: string,
                                                entries: seq<string>, window: Option<seq<string>>, n: nat)
    requires n <= |entries| && AllCities(Some([]), files, dirs, baseDir, entries[..n], window).None?
    ensures AllCities(Some([]), files, dirs, baseDir, entries, window).None?
    decreases |entries| - n
  {
    if n < |entries| {
      assert entries[..n + 1][..n] == entries[..n];
      AllCitiesStaysFailed(files, dirs, baseDir, entries, window, n + 1);
    } else {
      assert entries[..n] == entries;
    }
  }

  /** The months of a venue: a month of the window is present exactly when its playlist file
      shows a URL, and then holds that URL; no other key appears. */
  lemma {:induction false} MonthsOfLookup(files: map<string, Document>, cityDir: string, venueKey: string,
                                          months: seq<string>, month: string)
    ensures Lookup(MonthsOf(files, cityDir, venueKey, months), month)
      == if month in months && ShownUrl(files, PlaylistFilePath(cityDir, venueKey, month)).Some?
         then Some(MonthEntry(ShownUrl(files, PlaylistFilePath(cityDir, venueKey, month)).value)) else None
    decreases |months|
  {
    if months != [] {
      var init, last := months[..|months| - 1], months[|months| - 1];
      MonthsOfLookup(files, cityDir, venueKey, init, month);
      assert month in months <==> month in init || month == last;
      var url := ShownUrl(files, PlaylistFilePath(cityDir, venueKey, last));
      if url.Some? {
        PutLookup(MonthsOf(files, cityDir, venueKey, init), last, MonthEntry(url.value), month);
      }
    }
  }

  /** A record save_playlist_info wrote with a text URL is shown exactly when the URL does not
      contain `[TEST]`. */
  lemma SavedRecordShown(files: map<string, Document>, cityDir: string, venueKey: string, month: string,
                         url: string, created: string)
    ensures var path := PlaylistFilePath(cityDir, venueKey, month);
      ShownUrl(files[path := Doc(PlaylistRecord(venueKey, month, Str(url), created))], path)
      == if Contains(url, TEST_MARK) then None else Some(Str(url))
  {
    var fields := PlaylistRecord(venueKey, month, Str(url), created).fields;
    assert Lookup(fields, "playlist_url") == Some(Str(url));
  }

  /** The venue loop keeps the earlier cities' venues and adds exactly the well-formed entries: a
      bad entry is skipped while its siblings are kept. */
  lemma {:induction false} CityVenuesKeys(acc: Fields, files: map<string, Document>, cityDir: string, venues: Fields,
                                          window: Option<seq<string>>, venueKey: string)
    ensures venueKey in Keys(CityVenues(acc, files, cityDir, venues, window))
      <==> (venueKey in Keys(acc)
            || exists i :: 0 <= i < |venues| && venues[i].0 == venueKey && VenueData(files, cityDir, venueKey, venues[i].1, window).Some?)
    decreases |venues|
  {
    if venues != [] {
      var init, last := venues[..|venues| - 1], venues[|venues| - 1];
      CityVenuesKeys(acc, files, cityDir, init, window, venueKey);
      var data := VenueData(files, cityDir, last.0, last.1, window);
      if data.Some? {
        PutKeys(CityVenues(acc, files, cityDir, init, window), last.0, data.value);
      }
      Seqs.AnySnoc(venues, (e: (string, Value)) => e.0 == venueKey && VenueData(files, cityDir, venueKey, e.1, window).Some?);
    }
  }

  /** Every value the venue loop adds is the output entry of one of the city's entries under that
      key. */
  lemma {:induction false} CityVenuesValues(acc: Fields, files: map<string, Document>, cityDir: string, venues: Fields,
                                            window: Option<seq<string>>, venueKey: string)
    ensures var r := Lookup(CityVenues(acc, files, cityDir, venues, window), venueKey);
      r == Lookup(acc, venueKey)
      || exists i :: 0 <= i < |venues| && venues[i].0 == venueKey && r == VenueData(files, cityDir, venueKey, venues[i].1, window)
    decreases |venues|
  {
    if venues != [] {
      var init, last := venues[..|venues| - 1], venues[|venues| - 1];
      CityVenuesValues(acc, files, cityDir, init, window, venueKey);
      var prev := CityVenues(acc, files, cityDir, init, window);
      var data := VenueData(files, cityDir, last.0, last.1, window);
      var r := Lookup(CityVenues(acc, files, cityDir, venues, window), venueKey);
      if data.Some? {
        PutLookup(prev, last.0, data.value, venueKey);
      }
      if r != Lookup(acc, venueKey) {
        if data.Some? && last.0 == venueKey {
          assert venues[|venues| - 1].0 == venueKey && r == VenueData(files, cityDir, venueKey, venues[|venues| - 1].1, window);
        } else {
          assert r == Lookup(prev, venueKey);
          var i :| 0 <= i < |init| && init[i].0 == venueKey && r == VenueData(files, cityDir, venueKey, init[i].1, window);
          assert venues[i] == init[i];
        }
      }
    }
  }

  /** A city's `ValueError` escapes the loop: the loop fails exactly when some city directory holds
      a `venues.yaml` that does not parse. */
  lemma {:induction false} AllCitiesFails(acc: Fields, files: map<string, Document>, dirs: set<string>, baseDir: string,
                                          entries: seq<string>, window: Option<seq<string>>)
    ensures AllCities(Some(acc), files, dirs, baseDir, entries, window).None?
      <==> exists i :: 0 <= i < |entries| && baseDir + "/" + entries[i] in dirs && ReadCity(files, baseDir + "/" + entries[i]).Unparsed?
    decreases |entries|
  {
    if entries != [] {
      var init := entries[..|entries| - 1];
      AllCitiesFails(acc, files, dirs, baseDir, init, window);
      forall i | 0 <= i < |init| ensures init[i] == entries[i] { }
      var last := |entries| - 1;
      if baseDir + "/" + entries[last] in dirs && ReadCity(files, baseDir + "/" + entries[last]).Unparsed? {
        assert AllCities(Some(acc), files, dirs, baseDir, entries, window).None?;
      }
    }
  }

  /** The status of `GET /api/venues`: 503 exactly when the base directory is missing, 500
      exactly when it is not a directory or some city's `venues.yaml` does not parse, and 200
      with the loaded output otherwise. */
  lemma GetVenuesStatus(files: map<string, Document>, dirs: set<string>, baseDir: string, entries: seq<string>,
                        window: Option<seq<string>>, now: string)
    ensures var resp := GetVenues(LoadOutcome(files, dirs, baseDir, entries, window, now));
      (resp.status == 503 <==> baseDir !in dirs && baseDir !in files)
      && (resp.status == 500 <==>
            ((baseDir in files && baseDir !in dirs)
             || (baseDir in dirs && exists i :: 0 <= i < |entries| && baseDir + "/" + entries[i] in dirs
                                               && ReadCity(files, baseDir + "/" + entries[i]).Unparsed?)))
      && (resp.status == 200 <==> LoadOutcome(files, dirs, baseDir, entries, window, now).Loaded?)
  {
    AllCitiesFails([], files, dirs, baseDir, entries, window);
  }

  /** When the month window raises, the venue loop adds nothing. */
  lemma {:induction false} CityVenuesNoWindow(acc: Fields, files: map<string, Document>, cityDir: string, venues: Fields)
    ensures CityVenues(acc, files, cityDir, venues, None) == acc
    decreases |venues|
  {
    if venues != [] {
      CityVenuesNoWindow(acc, files, cityDir, venues[..|venues| - 1]);
    }
  }

  /** ... and so no city adds a venue. */
  lemma {:induction false} AllCitiesNoWindow(acc: Fields, files: map<string, Document>, dirs: set<string>, baseDir: string,
                                             entries: seq<string>)
    ensures AllCities(Some(acc), files, dirs, baseDir, entries, None).Some? ==>
      AllCities(Some(acc), files, dirs, baseDir, entries, None) == Some(acc)
    decreases |entries|
  {
    if entries != [] {
      var init := entries[..|entries| - 1];
      AllCitiesNoWindow(acc, files, dirs, baseDir, init);
      var cityDir := baseDir + "/" + entries[|entries| - 1];
      match ReadCity(files, cityDir)
      case Venues(vs) => CityVenuesNoWindow(acc, files, cityDir, vs);
      case _ =>
    }
  }

  /** On a day whose month window raises, `GET /api/venues` answers 200 with no venue at all,
      unless the base directory is missing or some `venues.yaml` does not parse. */
  lemma NoWindowNoVenues(files: map<string, Document>, dirs: set<string>, baseDir: string, entries: seq<string>, now: string)
    requires baseDir in dirs
    requires forall i :: 0 <= i < |entries| && baseDir + "/" + entries[i] in dirs ==> !ReadCity(files, baseDir + "/" + entries[i]).Unparsed?
    ensures GetVenues(LoadOutcome(files, dirs, baseDir, entries, None, now))
      == Response(200, Object([("venues", Object([])), ("last_updated", Str(now))]))
  {
    AllCitiesFails([], files, dirs, baseDir, entries, None);
    AllCitiesNoWindow([], files, dirs, baseDir, entries);
  }

  /** The API's window names a month with a capital letter ("January_2025"), while the
      pipeline saves it under its lower-cased key ("january_2025"): a record saved for a month
      is at another path than the one read for that month, and does not change what is shown. */
  lemma LowerCaseSaveNotRead(files: map<string, Document>, cityDir: string, venueKey: string,
                             d: Calendar.DateTime, doc: Document)
    ensures var written := PlaylistFilePath(cityDir, venueKey, Calendar.MonthKey(d));
      var read := PlaylistFilePath(cityDir, venueKey, Calendar.FormatMonthYear(d));
      written != read && ShownUrl(files[written := doc], read) == ShownUrl(files, read)
  {
    var pre := cityDir + "/" + venueKey + "/playlist_";
    var written := PlaylistFilePath(cityDir, venueKey, Calendar.MonthKey(d));
    var read := PlaylistFilePath(cityDir, venueKey, Calendar.FormatMonthYear(d));
    TextUtils.MonthKeyHead(d);
    var name := Calendar.MonthName(d.month);
    assert IsUpper(name[0]);
    assert Calendar.FormatMonthYear(d)[0] == name[0];
    assert written[|pre|] == Calendar.MonthKey(d)[0];
    assert read[|pre|] == name[0];
  }

  /** The months of the window whose playlist file shows a URL, in window order. */
  function ShownMonths(files: map<string, Document>, cityDir: string, venueKey: string, months: seq<string>): (r: seq<string>)
    ensures forall m :: m in r ==> m in months
    decreases |months|
  {
    if months == [] then []
    else
      var last := months[|months| - 1];
      ShownMonths(files, cityDir, venueKey, months[..|months| - 1])
      + (if ShownUrl(files, PlaylistFilePath(cityDir, venueKey, last)).Some? then [last] else [])
  }

  /** Over a window without repeated months, the months fill in window order. */
  lemma {:induction false} MonthsOfInOrder(files: map<string, Document>, cityDir: string, venueKey: string, months: seq<string>)
    requires forall i, j :: 0 <= i < j < |months| ==> months[i] != months[j]
    ensures Keys(MonthsOf(files, cityDir, venueKey, months)) == ShownMonths(files, cityDir, venueKey, months)
    decreases |months|
  {
    if months != [] {
      var init, last := months[..|months| - 1], months[|months| - 1];
      MonthsOfInOrder(files, cityDir, venueKey, init);
      var url := ShownUrl(files, PlaylistFilePath(cityDir, venueKey, last));
      if url.Some? {
        assert last !in init;
        MonthsOfLookup(files, cityDir, venueKey, init, last);
        PutKeys(MonthsOf(files, cityDir, venueKey, init), last, MonthEntry(url.value));
      }
    }
  }
}
