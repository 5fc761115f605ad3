/** api/venues.py: the older read side. Every venue of every city directory is emitted with its
    name, its description and no months; nothing is caught, so any missing file, unparsable
    document or malformed entry makes the whole load raise. */
module LegacyApi {
  import opened Wrappers
  import opened Values
  import VenuesApi
  import Seqs

  /** `base_dir`'s default. */
  const DEFAULT_BASE_DIR := "data/venue-data"

  /** A venue's entry; `None` is the exception of an entry that is not a dict or has no `name`. */
  function LegacyVenue(info: Value): (r: Option<Value>)
    ensures r.Some? <==> info.Object? && "name" in Keys(info.fields)
  {
    if !info.Object? then None
    else match Lookup(info.fields, "name")
      case None => None
      case Some(name) =>
        var description := match Lookup(info.fields, "description") case None => Str("") case Some(d) => d;
        Some(Object([("name", name), ("description", description), ("months", Object([]))]))
  }

  /** The venue loop of one city; `None` once an entry raised. */
  function LegacyCity(acc: Fields, venues: Fields): Option<Fields>
    decreases |venues|
  {
    if venues == [] then Some(acc)
    else match LegacyCity(acc, venues[..|venues| - 1])
      case None => None
      case Some(prev) =>
        var last := venues[|venues| - 1];
        match LegacyVenue(last.1)
        case None => None
        case Some(data) => Some(Put(prev, last.0, data))
  }

  /** `yaml.safe_load(f)['venues']` followed by `.items()`: `None` for a missing or unparsable
      file, a document without a `venues` entry, or one whose `venues` is not a dict. */
  function ReadLegacyCity(files: map<string, Document>, cityDir: string): Option<Fields> {
    var path := cityDir + "/venues.yaml";
    if path !in files then None
    else match files[path]
      case Malformed => None
      case Doc(v) =>
        match Index(v, "venues")
        case None => None
        case Some(vs) => if vs.Object? then Some(vs.fields) else None
  }

  /** The city loop over the base directory's listing; `None` once something raised. */
  function LegacyCities(acc: Fields, files: map<string, Document>, dirs: set<string>, baseDir: string,
                        entries: seq<string>): Option<Fields>
    decreases |entries|
  {
    if entries == [] then Some(acc)
    else match LegacyCities(acc, files, dirs, baseDir, entries[..|entries| - 1])
      case None => None
      case Some(prev) =>
        var cityDir := baseDir + "/" + entries[|entries| - 1];
        if cityDir !in dirs then Some(prev)
        else match ReadLegacyCity(files, cityDir)
          case None => None
          case Some(vs) => LegacyCity(prev, vs)
  }

  /** load_venues: listing a base directory that is not a directory raises. */
  function LegacyLoad(files: map<string, Document>, dirs: set<string>, baseDir: string, entries: seq<string>): Option<Value> {
    if baseDir !in dirs then None
    else match LegacyCities([], files, dirs, baseDir, entries)
      case None => None
      case Some(venues) => Some(Object([("venues", Object(venues))]))
  }

  /** The venue loop of a city. */
  method LoadCity(acc: Fields, venues: Fields) returns (r: Option<Fields>)
    ensures r == LegacyCity(acc, venues)
  {
    var out := acc;
    for i := 0 to |venues|
      invariant LegacyCity(acc, venues[..i]) == Some(out)
    {
      assert venues[..i + 1][..i] == venues[..i];
      var (venueKey, info) := venues[i];
      if !info.Object? || Lookup(info.fields, "name").None? {
        LegacyCityStaysFailed(acc, venues, i + 1);
        return None;
      }
      var description := match Lookup(info.fields, "description") case None => Str("") case Some(d) => d;
      out := Put(out, venueKey, Object([("name", Lookup(info.fields, "name").value), ("description", description),
        ("months", Object([]))]));
    }
    assert venues[..|venues|] == venues;
    r := Some(out);
  }

  /** load_venues over the base directory's listing `entries`; `None` is the exception. */
  method LoadVenues(files: map<string, Document>, dirs: set<string>, baseDir: string, entries: seq<string>)
    returns (r: Option<Value>)
    ensures r == LegacyLoad(files, dirs, baseDir, entries)
  {
    if baseDir !in dirs {
      return None;
    }
    var out: Fields := [];
    for i := 0 to |entries|
      invariant LegacyCities([], files, dirs, baseDir, entries[..i]) == Some(out)
    {
      assert entries[..i + 1][..i] == entries[..i];
      var cityDir := baseDir + "/" + entries[i];
      if cityDir in dirs {
        var venues := ReadLegacyCity(files, cityDir);
        if venues.None? {
          LegacyCitiesStaysFailed(files, dirs, baseDir, entries, i + 1);
          return None;
        }
        var next := LoadCity(out, venues.value);
        if next.None? {
          LegacyCitiesStaysFailed(files, dirs, baseDir, entries, i + 1);
          return None;
        }
        out := next.value;
      }
    }
    assert entries[..|entries|] == entries;
    r := Some(Object([("venues", Object(out))]));
  }

  /** Once an entry has raised, the city's loop stays failed. */
  lemma {:induction false} LegacyCityStaysFailed(acc: Fields, venues: Fields, n: nat)
    requires n <= |venues| && LegacyCity(acc, venues[..n]).None?
    ensures LegacyCity(acc, venues).None?
    decreases |venues| - n
  {
    if n < |venues| {
      assert venues[..n + 1][..n] == venues[..n];
      LegacyCityStaysFailed(acc, venues, n + 1);
    } else {
      assert venues[..n] == venues;
    }
  }

  /** Once a city has raised, the load stays failed. */
  lemma {:induction false} LegacyCitiesStaysFailed(files: map<string, Document>, dirs: set<string>, baseDir: string,
                                                   entries: seq<string>, n: nat)
    requires n <= |entries| && LegacyCities([], files, dirs, baseDir, entries[..n]).None?
    ensures LegacyCities([], files, dirs, baseDir, entries).None?
    decreases |entries| - n
  {
    if n < |entries| {
      assert entries[..n + 1][..n] == entries[..n];
      LegacyCitiesStaysFailed(files, dirs, baseDir, entries, n + 1);
    } else {
      assert entries[..n] == entries;
    }
  }

  /** The shape of an emitted venue: a name, a description and empty months. */
  predicate LegacyShaped(v: Value) {
    v.Object? && "name" in Keys(v.fields) && "description" in Keys(v.fields) && Lookup(v.fields, "months") == Some(Object([]))
  }

  /** A city loads exactly when every entry is a dict with a `name`. */
  lemma {:induction false} LegacyCityLoads(acc: Fields, venues: Fields)
    ensures LegacyCity(acc, venues).Some? <==>
      forall i :: 0 <= i < |venues| ==> venues[i].1.Object? && "name" in Keys(venues[i].1.fields)
    decreases |venues|
  {
    if venues != [] {
      LegacyCityLoads(acc, venues[..|venues| - 1]);
      Seqs.AllSnoc(venues, (e: (string, Value)) => e.1.Object? && "name" in Keys(e.1.fields));
    }
  }

  /** A loaded city emits every one of its venues and keeps the earlier ones. */
  lemma {:induction false} LegacyCityKeys(acc: Fields, venues: Fields, k: string)
    requires LegacyCity(acc, venues).Some?
    ensures k in Keys(LegacyCity(acc, venues).value) <==> (k in Keys(acc) || exists i :: 0 <= i < |venues| && venues[i].0 == k)
    decreases |venues|
  {
    if venues != [] {
      var init, last := venues[..|venues| - 1], venues[|venues| - 1];
      LegacyCityKeys(acc, init, k);
      PutKeys(LegacyCity(acc, init).value, last.0, LegacyVenue(last.1).value);
      Seqs.AnySnoc(venues, (e: (string, Value)) => e.0 == k);
    }
  }

  /** Every venue a loaded city emits has a name, a description and no months. */
  lemma {:induction false} LegacyCityShaped(acc: Fields, venues: Fields, k: string)
    requires LegacyCity(acc, venues).Some?
    requires k in Keys(LegacyCity(acc, venues).value) && k !in Keys(acc)
    ensures LegacyShaped(Lookup(LegacyCity(acc, venues).value, k).value)
    decreases |venues|
  {
    var init, last := venues[..|venues| - 1], venues[|venues| - 1];
    var prev := LegacyCity(acc, init).value;
    var data := LegacyVenue(last.1).value;
    PutLookup(prev, last.0, data, k);
    PutKeys(prev, last.0, data);
    if k != last.0 {
      LegacyCityShaped(acc, init, k);
    }
  }

  /** Where the older loader succeeds, the newer one loads too and emits the same venue keys in
      the same order. */
  lemma SameKeysAsApi(files: map<string, Document>, dirs: set<string>, baseDir: string, entries: seq<string>,
                      months: seq<string>, now: string)
    requires LegacyLoad(files, dirs, baseDir, entries).Some?
    ensures var r := VenuesApi.LoadOutcome(files, dirs, baseDir, entries, Some(months), now);
      r.Loaded? && r.output.Object? && |r.output.fields| == 2 && r.output.fields[0].0 == "venues"
      && Keys(r.output.fields[0].1.fields) == Keys(LegacyLoad(files, dirs, baseDir, entries).value.fields[0].1.fields)
  {
    CitiesAgree([], [], files, dirs, baseDir, entries, months);
  }

  /** The city loops of the two loaders agree on keys while the older one succeeds. */
  lemma {:induction false} CitiesAgree(acc: Fields, acc': Fields, files: map<string, Document>, dirs: set<string>,
                                       baseDir: string, entries: seq<string>, months: seq<string>)
    requires Keys(acc) == Keys(acc') && LegacyCities(acc, files, dirs, baseDir, entries).Some?
    ensures var r := VenuesApi.AllCities(Some(acc'), files, dirs, baseDir, entries, Some(months));
      r.Some? && Keys(r.value) == Keys(LegacyCities(acc, files, dirs, baseDir, entries).value)
    decreases |entries|
  {
    if entries != [] {
      var init := entries[..|entries| - 1];
      CitiesAgree(acc, acc', files, dirs, baseDir, init, months);
      var prev := LegacyCities(acc, files, dirs, baseDir, init).value;
      var prev' := VenuesApi.AllCities(Some(acc'), files, dirs, baseDir, init, Some(months)).value;
      var cityDir := baseDir + "/" + entries[|entries| - 1];
      if cityDir in dirs {
        var vs := ReadLegacyCity(files, cityDir).value;
        var v := files[cityDir + "/venues.yaml"].value;
        assert "venues" in Keys(v.fields);
        assert VenuesApi.ReadCity(files, cityDir) == VenuesApi.Venues(vs);
        CityAgrees(prev, prev', files, cityDir, vs, months);
      }
    }
  }

  /** One city's venue loops agree on keys when the older one succeeds. */
  lemma {:induction false} CityAgrees(acc: Fields, acc': Fields, files: map<string, Document>, cityDir: string,
                                      venues: Fields, months: seq<string>)
    requires Keys(acc) == Keys(acc') && LegacyCity(acc, venues).Some?
    ensures Keys(VenuesApi.CityVenues(acc', files, cityDir, venues, Some(months))) == Keys(LegacyCity(acc, venues).value)
    decreases |venues|
  {
    if venues != [] {
      var init, last := venues[..|venues| - 1], venues[|venues| - 1];
      CityAgrees(acc, acc', files, cityDir, init, months);
      var prev := LegacyCity(acc, init).value;
      var prev' := VenuesApi.CityVenues(acc', files, cityDir, init, Some(months));
      var data := LegacyVenue(last.1).value;
      var data' := VenuesApi.VenueData(files, cityDir, last.0, last.1, Some(months)).value;
      PutKeys(prev, last.0, data);
      PutKeys(prev', last.0, data');
    }
  }
}
