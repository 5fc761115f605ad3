/** scripts/build_website_data.py: the static data file of the website. Every venue of every city
    directory that has at least one shown month is written to `website/data/venues.json`, with an
    empty `last_updated`. Nothing is caught but the per-month errors, so a malformed configuration
    or entry makes the whole build raise before anything is written. */
module WebsiteData {
  import opened Wrappers
  import opened Values
  import opened Store
  import VenueStorage
  import opened VenuesApi
  import Seqs

  const BASE_DIR := "data/venue-data"
  const WEBSITE_DIR := "website/data"
  const OUTPUT_FILE := "website/data/venues.json"

  /** A venue's website entry, with at least one month. */
  function SiteVenue(name: Value, description: Value, months: Fields): Value {
    Object([("name", name), ("description", description), ("months", Object(months))])
  }

  /** The venue loop of one city; `None` once an entry that is not a dict or has no `name` raised.
      A venue without a shown month is left out. */
  function SiteCity(acc: Fields, files: map<string, Document>, cityDir: string, venues: Fields, months: seq<string>): Option<Fields>
    decreases |venues|
  {
    if venues == [] then Some(acc)
    else match SiteCity(acc, files, cityDir, venues[..|venues| - 1], months)
      case None => None
      case Some(prev) =>
        var (venueKey, info) := venues[|venues| - 1];
        if !info.Object? || Lookup(info.fields, "name").None? then None
        else
          var description := match Lookup(info.fields, "description") case None => Str("") case Some(d) => d;
          var shown := MonthsOf(files, cityDir, venueKey, months);
          if shown == [] then Some(prev)
          else Some(Put(prev, venueKey, SiteVenue(Lookup(info.fields, "name").value, description, shown)))
  }

  /** The city loop; a configuration without `.items()` raises. */
  function SiteCities(acc: Fields, files: map<string, Document>, dirs: set<string>, entries: seq<string>,
                      months: seq<string>): Option<Fields>
    decreases |entries|
  {
    if entries == [] then Some(acc)
    else match SiteCities(acc, files, dirs, entries[..|entries| - 1], months)
      case None => None
      case Some(prev) =>
        var cityDir := BASE_DIR + "/" + entries[|entries| - 1];
        if cityDir !in dirs then Some(prev)
        else
          var venues := VenueStorage.LoadVenueConfig(files, cityDir + "/venues.yaml");
          if !venues.Object? then None else SiteCity(prev, files, cityDir, venues.fields, months)
  }

  /** The document written. */
  function SiteOutput(venues: Fields): Value {
    Object([("venues", Object(venues)), ("last_updated", Str(""))])
  }

  /** The website directory can be made: `mkdir(exist_ok=True)` needs its parent. */
  predicate CanMakeWebsiteDir(dirs: set<string>) {
    WEBSITE_DIR in dirs || "website" in dirs
  }

  /** The venue loop of a city. */
  method BuildCity(acc: Fields, files: map<string, Document>, cityDir: string, venues: Fields, months: seq<string>)
    returns (r: Option<Fields>)
    ensures r == SiteCity(acc, files, cityDir, venues, months)
  {
    var out := acc;
    for i := 0 to |venues|
      invariant SiteCity(acc, files, cityDir, venues[..i], months) == Some(out)
    {
      assert venues[..i + 1][..i] == venues[..i];
      var (venueKey, info) := venues[i];
      if !info.Object? || Lookup(info.fields, "name").None? {
        SiteCityStaysFailed(acc, files, cityDir, venues, months, i + 1);
        return None;
      }
      var description := match Lookup(info.fields, "description") case None => Str("") case Some(d) => d;
      var shown := LoadMonths(files, cityDir, venueKey, months);
      if shown != [] {
        out := Put(out, venueKey, SiteVenue(Lookup(info.fields, "name").value, description, shown));
      }
    }
    assert venues[..|venues|] == venues;
    r := Some(out);
  }

  /** build_website_data over the data directory's listing `entries`, with the month window
      `months`. It returns the output path, or `None` for the exception. */
  method BuildWebsiteData(store: FileStore, entries: seq<string>, months: seq<string>) returns (r: Option<string>)
    modifies store
    ensures !CanMakeWebsiteDir(old(store.dirs)) ==> r == None && store.files == old(store.files) && store.dirs == old(store.dirs)
    ensures CanMakeWebsiteDir(old(store.dirs)) ==>
      store.dirs == old(store.dirs) + {WEBSITE_DIR}
      && var built := if BASE_DIR in old(store.dirs) then SiteCities([], old(store.files), old(store.dirs), entries, months) else None;
         (built.None? ==> r == None && store.files == old(store.files))
         && (built.Some? ==> r == Some(OUTPUT_FILE) && store.files == old(store.files)[OUTPUT_FILE := Doc(SiteOutput(built.value))])
  {
    if !CanMakeWebsiteDir(store.dirs) {
      return None;
    }
    var dirs0 := store.dirs;
    store.MakeDir(WEBSITE_DIR);
    if BASE_DIR !in dirs0 {
      return None;
    }
    var out: Fields := [];
    for i := 0 to |entries|
      invariant SiteCities([], store.files, dirs0, entries[..i], months) == Some(out)
      invariant store.files == old(store.files) && store.dirs == dirs0 + {WEBSITE_DIR}
    {
      assert entries[..i + 1][..i] == entries[..i];
      var cityDir := BASE_DIR + "/" + entries[i];
      if cityDir in dirs0 {
        var venues := VenueStorage.LoadVenueConfig(store.files, cityDir + "/venues.yaml");
        if !venues.Object? {
          SiteCitiesStaysFailed(store.files, dirs0, entries, months, i + 1);
          return None;
        }
        var next := BuildCity(out, store.files, cityDir, venues.fields, months);
        if next.None? {
          SiteCitiesStaysFailed(store.files, dirs0, entries, months, i + 1);
          return None;
        }
        out := next.value;
      }
    }
    assert entries[..|entries|] == entries;
    store.Write(OUTPUT_FILE, Doc(SiteOutput(out)));
    r := Some(OUTPUT_FILE);
  }

  /** Once an entry has raised, the city's loop stays failed. */
  lemma {:induction false} SiteCityStaysFailed(acc: Fields, files: map<string, Document>, cityDir: string, venues: Fields,
                                               months: seq<string>, n: nat)
    requires n <= |venues| && SiteCity(acc, files, cityDir, venues[..n], months).None?
    ensures SiteCity(acc, files, cityDir, venues, months).None?
    decreases |venues| - n
  {
    if n < |venues| {
      assert venues[..n + 1][..n] == venues[..n];
      SiteCityStaysFailed(acc, files, cityDir, venues, months, n + 1);
    } else {
      assert venues[..n] == venues;
    }
  }

  /** Once a city has raised, the build stays failed. */
  lemma {:induction false} SiteCitiesStaysFailed(files: map<string, Document>, dirs: set<string>, entries: seq<string>,
                                                 months: seq<string>, n: nat)
    requires n <= |entries| && SiteCities([], files, dirs, entries[..n], months).None?
    ensures SiteCities([], files, dirs, entries, months).None?
    decreases |entries| - n
  {
    if n < |entries| {
      assert entries[..n + 1][..n] == entries[..n];
      SiteCitiesStaysFailed(files, dirs, entries, months, n + 1);
    } else {
      assert entries[..n] == entries;
    }
  }

  /** A city builds exactly when every entry is a dict with a `name`. */
  lemma {:induction false} SiteCityLoads(acc: Fields, files: map<string, Document>, cityDir: string, venues: Fields, months: seq<string>)
    ensures SiteCity(acc, files, cityDir, venues, months).Some? <==>
      forall i :: 0 <= i < |venues| ==> venues[i].1.Object? && "name" in Keys(venues[i].1.fields)
    decreases |venues|
  {
    if venues != [] {
      SiteCityLoads(acc, files, cityDir, venues[..|venues| - 1], months);
      Seqs.AllSnoc(venues, (e: (string, Value)) => e.1.Object? && "name" in Keys(e.1.fields));
    }
  }

  /** A built city emits exactly its venues with at least one shown month, and keeps the earlier
      ones. */
  lemma {:induction false} SiteCityKeys(acc: Fields, files: map<string, Document>, cityDir: string, venues: Fields,
                                        months: seq<string>, k: string)
    requires SiteCity(acc, files, cityDir, venues, months).Some?
    ensures k in Keys(SiteCity(acc, files, cityDir, venues, months).value)
      <==> (k in Keys(acc) || exists i :: 0 <= i < |venues| && venues[i].0 == k && MonthsOf(files, cityDir, k, months) != [])
    decreases |venues|
  {
    if venues != [] {
      var init, last := venues[..|venues| - 1], venues[|venues| - 1];
      SiteCityKeys(acc, files, cityDir, init, months, k);
      var prev := SiteCity(acc, files, cityDir, init, months).value;
      var shown := MonthsOf(files, cityDir, last.0, months);
      if shown != [] {
        var description := match Lookup(last.1.fields, "description") case None => Str("") case Some(d) => d;
        PutKeys(prev, last.0, SiteVenue(Lookup(last.1.fields, "name").value, description, shown));
      }
      Seqs.AnySnoc(venues, (e: (string, Value)) => e.0 == k && MonthsOf(files, cityDir, k, months) != []);
    }
  }

  /** Every venue a built city adds carries its name and the months its files show, and at
      least one. */
  lemma {:induction false} SiteCityShown(acc: Fields, files: map<string, Document>, cityDir: string, venues: Fields,
                                         months: seq<string>, k: string)
    requires SiteCity(acc, files, cityDir, venues, months).Some?
    requires k in Keys(SiteCity(acc, files, cityDir, venues, months).value) && k !in Keys(acc)
    ensures var v := Lookup(SiteCity(acc, files, cityDir, venues, months).value, k).value;
      v.Object? && Lookup(v.fields, "months") == Some(Object(MonthsOf(files, cityDir, k, months)))
      && MonthsOf(files, cityDir, k, months) != [] && "name" in Keys(v.fields)
    decreases |venues|
  {
    var init, last := venues[..|venues| - 1], venues[|venues| - 1];
    var prev := SiteCity(acc, files, cityDir, init, months).value;
    var shown := MonthsOf(files, cityDir, last.0, months);
    if shown != [] {
      var description := match Lookup(last.1.fields, "description") case None => Str("") case Some(d) => d;
      var data := SiteVenue(Lookup(last.1.fields, "name").value, description, shown);
      PutLookup(prev, last.0, data, k);
      PutKeys(prev, last.0, data);
      if k != last.0 {
        SiteCityShown(acc, files, cityDir, init, months, k);
      }
    } else {
      SiteCityShown(acc, files, cityDir, init, months, k);
    }
  }
}
