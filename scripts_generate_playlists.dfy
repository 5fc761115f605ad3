/** scripts/generate_playlists.py: the playlist run of the scripts pipeline. For every city under
    the venue data directory, every month and every configured venue key, the venue's artists are
    read, each artist gets one search, and a playlist named after the venue key is created and
    recorded when some track was found. No step catches an exception, so the first one ends the
    whole run. */
module ScriptsGeneratePlaylists {
  import opened Wrappers
  import opened Values
  import opened Store
  import opened Spotify
  import VenueStorage
  import opened PlaylistStorage
  import PG = PlaylistGenerator
  import SG = ScriptsGenerator
  import GP = GeneratePlaylists
  import Seqs

  /** `base_dir` of process_city_playlists and the directory generate_playlists lists. */
  const VENUE_DATA_DIR := "data/venue-data"

  /** The files, the directories and the requests sent so far. */
  datatype State = State(files: map<string, Document>, dirs: set<string>, log: seq<Request>)

  /** The state after a step, and whether an exception left it. */
  datatype Outcome = Outcome(state: State, crashed: bool)

  /** `Path(city_path) / venue_key / f"artists_{month}.yaml"`. */
  function ArtistsPath(cityPath: string, venueKey: string, month: string): string {
    VenueStorage.ArtistFilePath(VenueStorage.VenueOutputDir(cityPath, venueKey), month)
  }

  /** load_artists_for_month: `[]` for a missing file, otherwise `data.get('artists', [])`.
      `None` is an exception: a file that does not parse, or one whose document is not a dict
      (an empty file loads as `None`, which has no `get`). */
  function LoadArtists(files: map<string, Document>, cityPath: string, venueKey: string, month: string): (r: Option<Value>)
    ensures ArtistsPath(cityPath, venueKey, month) !in files ==> r == Some(List([]))
    ensures r.None? <==> (ArtistsPath(cityPath, venueKey, month) in files
      && (files[ArtistsPath(cityPath, venueKey, month)].Malformed? || !files[ArtistsPath(cityPath, venueKey, month)].value.Object?))
  {
    var path := ArtistsPath(cityPath, venueKey, month);
    if path !in files then Some(List([]))
    else match files[path]
      case Malformed => None
      case Doc(data) =>
        if !data.Object? then None
        else match Lookup(data.fields, "artists")
          case None => Some(List([]))
          case Some(artists) => Some(artists)
  }

  /** The scripts generator's search, as a function of the artist and the next request's number. */
  function Searcher(replies: nat -> Call<Value>): (Value, nat) -> Exchange<seq<Value>> {
    (artist: Value, k: nat) => SG.SingleSearch(replies, artist, k)
  }

  /** The `if all_tracks:` branch: create the playlist under the venue key; save it when a URL
      came back. The record's time is the clock at the save. */
  function Publish(replies: nat -> Call<Value>, isoAt: nat -> string, st: State, cityPath: string, venueKey: string,
                   month: string, tracks: seq<Value>): State {
    var made := SG.CreateOnce(replies, |st.log|, PG.PlaylistName("", venueKey, month), PG.Description(venueKey, month, None), tracks);
    var sent := st.(log := st.log + made.sent);
    if !Truthy(made.result) then sent
    else
      sent.(files := sent.files[PlaylistFilePath(cityPath, venueKey, month) :=
              Doc(PlaylistRecord(venueKey, month, made.result, isoAt(|sent.log|)))],
            dirs := sent.dirs + DirChain(cityPath + "/" + venueKey))
  }

  /** One venue key in one month. */
  function VenueMonth(replies: nat -> Call<Value>, isoAt: nat -> string, st: State, cityPath: string,
                      month: string, venueKey: string): Outcome {
    match LoadArtists(st.files, cityPath, venueKey, month)
    case None => Outcome(st, true)
    case Some(artists) =>
      if !Truthy(artists) then Outcome(st, false)
      else match Iterate(artists)
        case None => Outcome(st, true)
        case Some(names) =>
          var found := GP.ArtistTracks(Searcher(replies), |st.log|, names);
          var searched := st.(log := st.log + found.sent);
          if found.result == [] then Outcome(searched, false)
          else Outcome(Publish(replies, isoAt, searched, cityPath, venueKey, month, found.result), false)
  }

  /** The venue step of a city, as a function of the state, the month and the key. */
  function VenueStep(replies: nat -> Call<Value>, isoAt: nat -> string, cityPath: string): (State, string, string) -> Outcome {
    (st: State, month: string, venueKey: string) => VenueMonth(replies, isoAt, st, cityPath, month, venueKey)
  }

  /** The key loop of one month, in key order; an exception stops it. */
  function KeysPass(step: (State, string, string) -> Outcome, o: Outcome, month: string, keys: seq<string>): Outcome
    decreases |keys|
  {
    if keys == [] then o
    else
      var prev := KeysPass(step, o, month, keys[..|keys| - 1]);
      if prev.crashed then prev else step(prev.state, month, keys[|keys| - 1])
  }

  /** The month loop: every month runs the key loop from where the month before it ended. */
  function MonthsPass(step: (State, string, string) -> Outcome, o: Outcome, months: seq<string>, keys: seq<string>): Outcome
    decreases |months|
  {
    if months == [] then o else KeysPass(step, MonthsPass(step, o, months[..|months| - 1], keys), months[|months| - 1], keys)
  }

  /** The months loop over `venues.keys()`: a configuration that is not a dict raises at its first
      month. */
  function CityMonths(replies: nat -> Call<Value>, isoAt: nat -> string, st: State, cityPath: string, venues: Value,
                      months: seq<string>): Outcome {
    if !venues.Object? then Outcome(st, months != [])
    else MonthsPass(VenueStep(replies, isoAt, cityPath), Outcome(st, false), months, Keys(venues.fields))
  }

  /** process_city_playlists: the configuration is read, then the generator connects (a failure
      raises), then the months run. */
  function CityRun(replies: nat -> Call<Value>, isoAt: nat -> string, refreshToken: Option<string>, months: seq<string>,
                   st: State, city: string): Outcome {
    var cityPath := VENUE_DATA_DIR + "/" + city;
    var venues := VenueStorage.LoadVenueConfig(st.files, cityPath + "/venues.yaml");
    if !SG.HasRefreshToken(refreshToken) then Outcome(st, true)
    else
      var connected := st.(log := st.log + [Me]);
      var user := replies(|st.log|);
      if user.Raised? || Index(user.value, "display_name").None? then Outcome(connected, true)
      else CityMonths(replies, isoAt, connected, cityPath, venues, months)
  }

  /** The city step of the run. */
  function CityStep(replies: nat -> Call<Value>, isoAt: nat -> string, refreshToken: Option<string>, months: seq<string>)
    : (State, string) -> Outcome
  {
    (st: State, city: string) => CityRun(replies, isoAt, refreshToken, months, st, city)
  }

  /** The city loop; the first exception ends the run. */
  function CitiesPass(city: (State, string) -> Outcome, o: Outcome, cities: seq<string>): Outcome
    decreases |cities|
  {
    if cities == [] then o
    else
      var prev := CitiesPass(city, o, cities[..|cities| - 1]);
      if prev.crashed then prev else city(prev.state, cities[|cities| - 1])
  }

  /** The artist loop; it sees the searches only through `search`. */
  method SearchArtists(g: SG.ScriptsGenerator, artists: seq<Value>, ghost search: (Value, nat) -> Exchange<seq<Value>>)
    returns (tracks: seq<Value>)
    requires forall a: Value, k: nat {:trigger SG.SingleSearch(g.client.replies, a, k)} :: search(a, k) == SG.SingleSearch(g.client.replies, a, k)
    modifies g.client
    ensures var e := GP.ArtistTracks(search, |old(g.client.log)|, artists);
      tracks == e.result && g.client.log == old(g.client.log) + e.sent
  {
    tracks := [];
    ghost var sent: seq<Request> := [];
    ghost var start := |g.client.log|;
    for i := 0 to |artists|
      invariant GP.ArtistTracks(search, start, artists[..i]) == Exchange(tracks, sent)
      invariant g.client.log == old(g.client.log) + sent
    {
      GP.ArtistTracksSnoc(search, start, artists, i);
      var found, here := SearchOne(g, artists[i], search);
      Seqs.AppendAssoc(old(g.client.log), sent, here);
      tracks := tracks + found;
      sent := sent + here;
    }
    assert artists[..|artists|] == artists;
  }

  /** One search_artist_top_tracks call, seen through `search`. */
  method SearchOne(g: SG.ScriptsGenerator, artist: Value, ghost search: (Value, nat) -> Exchange<seq<Value>>)
    returns (tracks: seq<Value>, ghost sent: seq<Request>)
    requires forall a: Value, k: nat {:trigger SG.SingleSearch(g.client.replies, a, k)} :: search(a, k) == SG.SingleSearch(g.client.replies, a, k)
    modifies g.client
    ensures search(artist, |old(g.client.log)|) == Exchange(tracks, sent)
    ensures g.client.log == old(g.client.log) + sent
  {
    ghost var before := g.client.log;
    tracks := g.SearchArtistTopTracks(artist);
    sent := g.client.log[|before|..];
    assert g.client.log == before + sent;
  }

  /** The body of the key loop. */
  method ProcessVenueMonth(store: FileStore, g: SG.ScriptsGenerator, isoAt: nat -> string, cityPath: string,
                           month: string, venueKey: string)
    returns (crashed: bool)
    modifies store, g.client
    ensures var o := VenueMonth(g.client.replies, isoAt, State(old(store.files), old(store.dirs), old(g.client.log)), cityPath, month, venueKey);
      store.files == o.state.files && store.dirs == o.state.dirs && g.client.log == o.state.log && crashed == o.crashed
  {
    var artists := LoadArtists(store.files, cityPath, venueKey, month);
    if artists.None? {
      return true;
    }
    if !Truthy(artists.value) {
      return false;
    }
    var names := Iterate(artists.value);
    if names.None? {
      return true;
    }
    var tracks := SearchArtists(g, names.value, Searcher(g.client.replies));
    if tracks != [] {
      var url := g.CreateVenuePlaylist(venueKey, month, tracks);
      if Truthy(url) {
        SavePlaylistInfo(store, venueKey, month, url, cityPath, isoAt(|g.client.log|));
      }
    }
    crashed := false;
  }

  /** ProcessVenueMonth, seen through `step`. */
  method VenueVia(store: FileStore, g: SG.ScriptsGenerator, isoAt: nat -> string, cityPath: string, month: string,
                  venueKey: string, ghost step: (State, string, string) -> Outcome)
    returns (crashed: bool)
    requires forall st: State, m: string, k: string {:trigger VenueMonth(g.client.replies, isoAt, st, cityPath, m, k)} ::
      step(st, m, k) == VenueMonth(g.client.replies, isoAt, st, cityPath, m, k)
    modifies store, g.client
    ensures step(State(old(store.files), old(store.dirs), old(g.client.log)), month, venueKey)
      == Outcome(State(store.files, store.dirs, g.client.log), crashed)
  {
    crashed := ProcessVenueMonth(store, g, isoAt, cityPath, month, venueKey);
  }

  /** Once an exception has happened the key loop goes no further. */
  lemma {:induction false} KeysPassCrashedRest(step: (State, string, string) -> Outcome, o: Outcome, month: string,
                                               keys: seq<string>, n: nat)
    requires n <= |keys| && KeysPass(step, o, month, keys[..n]).crashed
    ensures KeysPass(step, o, month, keys) == KeysPass(step, o, month, keys[..n])
    decreases |keys| - n
  {
    if n < |keys| {
      assert keys[..n + 1][..n] == keys[..n];
      KeysPassCrashedRest(step, o, month, keys, n + 1);
    } else {
      assert keys[..n] == keys;
    }
  }

  /** The key loop of a crashed run does nothing. */
  lemma {:induction false} KeysPassFromCrashed(step: (State, string, string) -> Outcome, o: Outcome, month: string, keys: seq<string>)
    requires o.crashed
    ensures KeysPass(step, o, month, keys) == o
    decreases |keys|
  {
    if keys != [] {
      KeysPassFromCrashed(step, o, month, keys[..|keys| - 1]);
    }
  }

  /** An exception in some month ends the month loop there. */
  lemma {:induction false} MonthsPassCrashedRest(step: (State, string, string) -> Outcome, o: Outcome, months: seq<string>,
                                                 keys: seq<string>, n: nat)
    requires n <= |months| && MonthsPass(step, o, months[..n], keys).crashed
    ensures MonthsPass(step, o, months, keys) == MonthsPass(step, o, months[..n], keys)
    decreases |months| - n
  {
    if n < |months| {
      assert months[..n + 1][..n] == months[..n];
      KeysPassFromCrashed(step, MonthsPass(step, o, months[..n], keys), months[n], keys);
      MonthsPassCrashedRest(step, o, months, keys, n + 1);
    } else {
      assert months[..n] == months;
    }
  }

  /** The month and key loops; they see the venue step only through `step`. */
  method CityLoops(store: FileStore, g: SG.ScriptsGenerator, isoAt: nat -> string, cityPath: string, months: seq<string>,
                   keys: seq<string>, ghost step: (State, string, string) -> Outcome)
    returns (crashed: bool)
    requires forall st: State, m: string, k: string {:trigger VenueMonth(g.client.replies, isoAt, st, cityPath, m, k)} ::
      step(st, m, k) == VenueMonth(g.client.replies, isoAt, st, cityPath, m, k)
    modifies store, g.client
    ensures MonthsPass(step, Outcome(State(old(store.files), old(store.dirs), old(g.client.log)), false), months, keys)
      == Outcome(State(store.files, store.dirs, g.client.log), crashed)
  {
    ghost var o0 := Outcome(State(store.files, store.dirs, g.client.log), false);
    for m := 0 to |months|
      invariant MonthsPass(step, o0, months[..m], keys) == Outcome(State(store.files, store.dirs, g.client.log), false)
    {
      assert months[..m + 1][..m] == months[..m];
      ghost var om := Outcome(State(store.files, store.dirs, g.client.log), false);
      for v := 0 to |keys|
        invariant KeysPass(step, om, months[m], keys[..v]) == Outcome(State(store.files, store.dirs, g.client.log), false)
      {
        assert keys[..v + 1][..v] == keys[..v];
        crashed := VenueVia(store, g, isoAt, cityPath, months[m], keys[v], step);
        if crashed {
          KeysPassCrashedRest(step, om, months[m], keys, v + 1);
          MonthsPassCrashedRest(step, o0, months, keys, m + 1);
          return;
        }
      }
      assert keys[..|keys|] == keys;
    }
    assert months[..|months|] == months;
    crashed := false;
  }

  /** process_city_playlists for one city, with the month window `months`. */
  method ProcessCityPlaylists(store: FileStore, client: Client, refreshToken: Option<string>, isoAt: nat -> string,
                              city: string, months: seq<string>)
    returns (crashed: bool)
    modifies store, client
    ensures var o := CityRun(client.replies, isoAt, refreshToken, months, State(old(store.files), old(store.dirs), old(client.log)), city);
      store.files == o.state.files && store.dirs == o.state.dirs && client.log == o.state.log && crashed == o.crashed
  {
    var cityPath := VENUE_DATA_DIR + "/" + city;
    var venues := VenueStorage.LoadVenueConfig(store.files, cityPath + "/venues.yaml");
    var g := SG.ScriptsGenerator.Connect(client, refreshToken);
    if g == null {
      return true;
    }
    if !venues.Object? {
      return months != [];
    }
    crashed := CityLoops(store, g, isoAt, cityPath, months, Keys(venues.fields), VenueStep(client.replies, isoAt, cityPath));
  }

  /** ProcessCityPlaylists, seen through `city`. */
  method CityVia(store: FileStore, client: Client, refreshToken: Option<string>, isoAt: nat -> string, city: string,
                 months: seq<string>, ghost cityStep: (State, string) -> Outcome)
    returns (crashed: bool)
    requires forall st: State, c: string {:trigger CityRun(client.replies, isoAt, refreshToken, months, st, c)} ::
      cityStep(st, c) == CityRun(client.replies, isoAt, refreshToken, months, st, c)
    modifies store, client
    ensures cityStep(State(old(store.files), old(store.dirs), old(client.log)), city)
      == Outcome(State(store.files, store.dirs, client.log), crashed)
  {
    crashed := ProcessCityPlaylists(store, client, refreshToken, isoAt, city, months);
  }

  /** The city loop over a prefix one city longer: one more step, unless it had crashed. */
  lemma CitiesPassPrefix(city: (State, string) -> Outcome, o: Outcome, cities: seq<string>, i: nat)
    requires i < |cities|
    ensures var prev := CitiesPass(city, o, cities[..i]);
      CitiesPass(city, o, cities[..i + 1]) == if prev.crashed then prev else city(prev.state, cities[i])
  {
    assert cities[..i + 1][..i] == cities[..i];
  }

  /** Once an exception has happened the city loop goes no further. */
  lemma {:induction false} CitiesPassCrashedRest(city: (State, string) -> Outcome, o: Outcome, cities: seq<string>, n: nat)
    requires n <= |cities| && CitiesPass(city, o, cities[..n]).crashed
    ensures CitiesPass(city, o, cities) == CitiesPass(city, o, cities[..n])
    decreases |cities| - n
  {
    if n < |cities| {
      assert cities[..n + 1][..n] == cities[..n];
      CitiesPassCrashedRest(city, o, cities, n + 1);
    } else {
      assert cities[..n] == cities;
    }
  }

  /** generate_playlists: every directory under the venue data directory, in listing order, until
      the first exception. `entries` is the directory's listing; `months` is get_next_months'. */
  method GeneratePlaylists(store: FileStore, client: Client, refreshToken: Option<string>, isoAt: nat -> string,
                           entries: seq<string>, months: seq<string>)
    returns (crashed: bool)
    modifies store, client
    ensures var o := CitiesPass(CityStep(client.replies, isoAt, refreshToken, months),
      Outcome(State(old(store.files), old(store.dirs), old(client.log)), false), GP.CityNames(entries, old(store.dirs), VENUE_DATA_DIR));
      store.files == o.state.files && store.dirs == o.state.dirs && client.log == o.state.log && crashed == o.crashed
  {
    var cities := GP.CityNames(entries, store.dirs, VENUE_DATA_DIR);
    ghost var cityStep := CityStep(client.replies, isoAt, refreshToken, months);
    ghost var o0 := Outcome(State(store.files, store.dirs, client.log), false);
    crashed := false;
    for i := 0 to |cities|
      invariant CitiesPass(cityStep, o0, cities[..i]) == Outcome(State(store.files, store.dirs, client.log), false)
    {
      CitiesPassPrefix(cityStep, o0, cities, i);
      crashed := CityVia(store, client, refreshToken, isoAt, cities[i], months, cityStep);
      if crashed {
        CitiesPassCrashedRest(cityStep, o0, cities, i + 1);
        return;
      }
    }
    assert cities[..|cities|] == cities;
  }

  /** What the collector's save_artists_to_file writes for a venue's month is read back as the
      month's artist names. */
  lemma LoadSavedArtists(files: map<string, Document>, cityPath: string, venueKey: string, month: string,
                         artists: seq<string>, updated: string)
    ensures LoadArtists(files[ArtistsPath(cityPath, venueKey, month) := Doc(VenueStorage.ArtistRecord(venueKey, month, artists, updated))],
      cityPath, venueKey, month) == Some(StrList(artists))
  {
    var fields := VenueStorage.ArtistRecord(venueKey, month, artists, updated).fields;
    assert Lookup(fields, "artists") == Some(StrList(artists));
  }

  /** One scripts search sends one or two requests, a search and maybe a top-tracks request, and
      keeps at most one track. */
  lemma SearcherBounds(replies: nat -> Call<Value>)
    ensures forall a, j {:trigger Searcher(replies)(a, j)} ::
      |Searcher(replies)(a, j).sent| <= 2 && |Searcher(replies)(a, j).result| <= SG.TRACKS_PER_ARTIST
      && (forall q :: q in Searcher(replies)(a, j).sent ==> q.Search? || q.TopTracks?)
  {
    forall a, j: nat ensures
      |Searcher(replies)(a, j).sent| <= 2 && |Searcher(replies)(a, j).result| <= SG.TRACKS_PER_ARTIST
      && (forall q :: q in Searcher(replies)(a, j).sent ==> q.Search? || q.TopTracks?)
    {
      SG.SingleSearchBounds(replies, a, j);
    }
  }

  /** The artist loop of the scripts run: at most two requests and one track per artist, and only
      searches and top-tracks requests. */
  lemma ArtistTracksBounds(replies: nat -> Call<Value>, k: nat, artists: seq<Value>)
    ensures var e := GP.ArtistTracks(Searcher(replies), k, artists);
      |e.sent| <= 2 * |artists| && |e.result| <= |artists| && (forall q :: q in e.sent ==> q.Search? || q.TopTracks?)
  {
    SearcherBounds(replies);
    GP.ArtistTracksSent(Searcher(replies), k, artists, 2);
    GP.ArtistTracksFound(Searcher(replies), k, artists, SG.TRACKS_PER_ARTIST);
    GP.ArtistTracksSendsOnly(Searcher(replies), k, artists, (q: Request) => q.Search? || q.TopTracks?);
  }

  /** Every creation request of a create_venue_playlist call carries its name and description. */
  lemma CreateOnceCreates(replies: nat -> Call<Value>, k: nat, name: string, description: string, uris: seq<Value>)
    ensures forall q :: q in SG.CreateOnce(replies, k, name, description, uris).sent && q.CreatePlaylist? ==>
      q.name == name && q.description == description
  {
    if replies(k).Returned? && Index(replies(k).value, "id").Some? && replies(k + 1).Returned? {
      var playlist := replies(k + 1).value;
      if uris != [] && Index(playlist, "id").Some? {
        PG.AddBatchesRequests(replies, k + 2, Index(playlist, "id").value, Seqs.Chunks(uris, PG.BATCH_SIZE), 0);
      }
    }
  }

  /** The tracks a venue's month finds, `[]` when its artists cannot be read or iterated. */
  function FoundTracks(replies: nat -> Call<Value>, st: State, cityPath: string, venueKey: string, month: string): seq<Value> {
    match LoadArtists(st.files, cityPath, venueKey, month)
    case None => []
    case Some(artists) =>
      match Iterate(artists)
      case None => []
      case Some(names) => GP.ArtistTracks(Searcher(replies), |st.log|, names).result
  }

  /** A venue's month only adds requests, and every playlist it creates is named after the venue
      key with no creation stamp; with no track there is no creation at all. */
  lemma VenueMonthRequests(replies: nat -> Call<Value>, isoAt: nat -> string, st: State, cityPath: string,
                           month: string, venueKey: string)
    ensures var o := VenueMonth(replies, isoAt, st, cityPath, month, venueKey);
      |st.log| <= |o.state.log| && o.state.log[..|st.log|] == st.log
      && (forall q :: q in o.state.log[|st.log|..] && q.CreatePlaylist? ==>
        q.name == PG.PlaylistName("", venueKey, month) && q.description == PG.Description(venueKey, month, None))
      && (FoundTracks(replies, st, cityPath, venueKey, month) == [] ==> GP.NoCreation(o.state.log[|st.log|..]))
  {
    var o := VenueMonth(replies, isoAt, st, cityPath, month, venueKey);
    var artists := LoadArtists(st.files, cityPath, venueKey, month);
    if artists.Some? && Truthy(artists.value) && Iterate(artists.value).Some? {
      var names := Iterate(artists.value).value;
      var found := GP.ArtistTracks(Searcher(replies), |st.log|, names);
      var searched := st.(log := st.log + found.sent);
      if found.result != [] {
        var p := Publish(replies, isoAt, searched, cityPath, venueKey, month, found.result);
        assert o.state == p;
        ArtistTracksBounds(replies, |st.log|, names);
        PublishGrows(replies, isoAt, st, found.sent, cityPath, venueKey, month, found.result);
      } else {
        assert o.state == searched;
        ArtistTracksBounds(replies, |st.log|, names);
        assert searched.log[|st.log|..] == found.sent;
      }
    } else {
      assert o.state == st;
    }
  }

  /** PublishEffects after some searches: the requests after `st` are the searches' then the
      publish's. */
  lemma PublishGrows(replies: nat -> Call<Value>, isoAt: nat -> string, st: State, searches: seq<Request>, cityPath: string,
                     venueKey: string, month: string, tracks: seq<Value>)
    requires forall q :: q in searches ==> q.Search? || q.TopTracks?
    ensures var p := Publish(replies, isoAt, st.(log := st.log + searches), cityPath, venueKey, month, tracks);
      |st.log| <= |p.log| && p.log[..|st.log|] == st.log
      && (forall q :: q in p.log[|st.log|..] && q.CreatePlaylist? ==>
        q.name == PG.PlaylistName("", venueKey, month) && q.description == PG.Description(venueKey, month, None))
  {
    var searched := st.(log := st.log + searches);
    PublishEffects(replies, isoAt, searched, cityPath, venueKey, month, tracks);
    var p := Publish(replies, isoAt, searched, cityPath, venueKey, month, tracks);
    assert p.log[..|searched.log|][..|st.log|] == p.log[..|st.log|];
    assert p.log[|st.log|..] == searches + p.log[|searched.log|..];
  }

  /** A venue's month changes the files only by a saved record with a URL, and only when some
      track was found. */
  lemma VenueMonthFiles(replies: nat -> Call<Value>, isoAt: nat -> string, st: State, cityPath: string,
                        month: string, venueKey: string)
    ensures var o := VenueMonth(replies, isoAt, st, cityPath, month, venueKey);
      o.state.files == st.files
      || (FoundTracks(replies, st, cityPath, venueKey, month) != [] && GP.SavedPlaylist(st.files, o.state.files, cityPath, venueKey, month))
  {
    var artists := LoadArtists(st.files, cityPath, venueKey, month);
    if artists.Some? && Truthy(artists.value) && Iterate(artists.value).Some? {
      var names := Iterate(artists.value).value;
      var found := GP.ArtistTracks(Searcher(replies), |st.log|, names);
      var searched := st.(log := st.log + found.sent);
      if found.result != [] {
        PublishEffects(replies, isoAt, searched, cityPath, venueKey, month, found.result);
      }
    }
  }

  /** A publish only adds requests, creates only under the venue key's name, and changes the files
      only by the saved record. */
  lemma PublishEffects(replies: nat -> Call<Value>, isoAt: nat -> string, st: State, cityPath: string, venueKey: string,
                       month: string, tracks: seq<Value>)
    ensures var p := Publish(replies, isoAt, st, cityPath, venueKey, month, tracks);
      |st.log| <= |p.log| && p.log[..|st.log|] == st.log
      && (forall q :: q in p.log[|st.log|..] && q.CreatePlaylist? ==>
        q.name == PG.PlaylistName("", venueKey, month) && q.description == PG.Description(venueKey, month, None))
      && (p.files == st.files || GP.SavedPlaylist(st.files, p.files, cityPath, venueKey, month))
  {
    var name, description := PG.PlaylistName("", venueKey, month), PG.Description(venueKey, month, None);
    var made := SG.CreateOnce(replies, |st.log|, name, description, tracks);
    CreateOnceCreates(replies, |st.log|, name, description, tracks);
    var log := st.log + made.sent;
    assert log[..|st.log|] == st.log && log[|st.log|..] == made.sent;
    if Truthy(made.result) {
      var t := isoAt(|log|);
      assert Publish(replies, isoAt, st, cityPath, venueKey, month, tracks).files
        == st.files[PlaylistFilePath(cityPath, venueKey, month) := Doc(PlaylistRecord(venueKey, month, made.result, t))];
    }
  }
}
