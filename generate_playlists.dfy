/** data_processing/generate_playlists.py: for every city, month and venue, the playlist run of the
    data-processing pipeline. A venue's month is read from its artist file, every artist's top
    tracks are looked up, and a playlist is created and recorded when some track was found. In
    test mode the playlists carry the "[TEST] " prefix and a creation stamp, and the ones created
    are unfollowed at the end of the run. */
module GeneratePlaylists {
  import opened Wrappers
  import opened Strings
  import opened Seqs
  import opened Values
  import opened Store
  import opened Spotify
  import VenueStorage
  import opened PlaylistStorage
  import PG = PlaylistGenerator
  import opened CollectEvents
  import PlaylistCleanup

  /** search_artist_top_tracks' default `max_retries`. */
  const MAX_RETRIES := 3
  /** The name prefix of test mode. */
  const TEST_NAME_PREFIX := "[TEST] "

  /** What the run reads from outside the model: the staleness predicate `needs_update(venue_key,
      month, city_path)` (given the files as they are when it is asked), and the clock, as the
      `strftime` stamp and the ISO time at the moment the n-th request is about to be sent. */
  datatype World = World(
    needsUpdate: (map<string, Document>, string, string, string) -> bool,
    stampAt: nat -> string,
    isoAt: nat -> string)

  /** The generator's settings for the run together with the service's replies. */
  datatype Setup = Setup(replies: nat -> Call<Value>, prefix: string, stamped: bool, perArtist: int, world: World)

  /** The generator's settings as the run sees them. */
  function Settings(g: PG.PlaylistGenerator, w: World): Setup
    reads g
  {
    Setup(g.client.replies, g.playlistPrefix, g.includeCreationTime, g.tracksPerArtist, w)
  }

  /** The state a run changes: the files and directories, every request sent so far, and the ids
      put in `created_playlists`. */
  datatype Run = Run(files: map<string, Document>, dirs: set<string>, log: seq<Request>, created: seq<string>)

  /** A run state, and whether an exception has ended the city's loops. */
  datatype Outcome = Outcome(run: Run, aborted: bool)

  /** `Path(city_path) / venue_key / f"artists_{month}.yaml"`: where the collector writes the month. */
  function ArtistsPath(cityPath: string, venueKey: string, month: string): string {
    VenueStorage.ArtistFilePath(VenueStorage.VenueOutputDir(cityPath, venueKey), month)
  }

  /** load_artists_for_month: the file's `artists` entry, `[]` when it has none; a missing file
      and any error while loading it (text that does not parse, a document that is not a dict)
      also give `[]`. */
  function LoadArtists(files: map<string, Document>, cityPath: string, venueKey: string, month: string): (r: Value)
    ensures ArtistsPath(cityPath, venueKey, month) !in files ==> r == List([])
    ensures var path := ArtistsPath(cityPath, venueKey, month);
      path in files && (files[path].Malformed? || !files[path].value.Object?) ==> r == List([])
    ensures var path := ArtistsPath(cityPath, venueKey, month);
      path in files && files[path].Doc? && files[path].value.Object? ==>
        r == (if "artists" in Keys(files[path].value.fields) then Lookup(files[path].value.fields, "artists").value else List([]))
  {
    var path := ArtistsPath(cityPath, venueKey, month);
    if path !in files then List([])
    else match files[path]
      case Malformed => List([])
      case Doc(data) =>
        match Get(data, "artists", List([]))
        case None => List([])
        case Some(artists) => artists
  }

  /** One artist's search_artist_top_tracks call, starting at request k. */
  function TrackSearcher(replies: nat -> Call<Value>, perArtist: int): (Value, nat) -> Exchange<seq<Value>> {
    (artist: Value, k: nat) => PG.TrackSearch(replies, artist, perArtist, k, MAX_RETRIES)
  }

  /** The tracks of the artists, concatenated in artist order; each search starts where the one
      before it stopped sending. */
  function ArtistTracks<A, R>(search: (A, nat) -> Exchange<seq<R>>, k: nat, artists: seq<A>): Exchange<seq<R>>
    decreases |artists|
  {
    if artists == [] then Exchange([], [])
    else
      var prev := ArtistTracks(search, k, artists[..|artists| - 1]);
      var t := search(artists[|artists| - 1], k + |prev.sent|);
      Exchange(prev.result + t.result, prev.sent + t.sent)
  }

  /** One more artist: its search follows the requests of the ones before it. */
  lemma ArtistTracksSnoc<A, R>(search: (A, nat) -> Exchange<seq<R>>, k: nat, artists: seq<A>, i: nat)
    requires i < |artists|
    ensures var prev := ArtistTracks(search, k, artists[..i]);
      var t := search(artists[i], k + |prev.sent|);
      ArtistTracks(search, k, artists[..i + 1]) == Exchange(prev.result + t.result, prev.sent + t.sent)
  {
    assert artists[..i + 1][..i] == artists[..i];
  }

  /** Once an abort has happened the venue loop goes no further. */
  lemma {:induction false} VenuesPassAbortedRest(step: (Run, string, string, Value) -> Outcome, o: Outcome, month: string,
                                                 venues: Fields, n: nat)
    requires n <= |venues| && VenuesPass(step, o, month, venues[..n]).aborted
    ensures VenuesPass(step, o, month, venues) == VenuesPass(step, o, month, venues[..n])
    decreases |venues| - n
  {
    if n < |venues| {
      assert venues[..n + 1][..n] == venues[..n];
      VenuesPassAbortedRest(step, o, month, venues, n + 1);
    } else {
      assert venues[..n] == venues;
    }
  }

  /** The venue loop of an aborted city does nothing. */
  lemma {:induction false} VenuesPassFromAborted(step: (Run, string, string, Value) -> Outcome, o: Outcome, month: string, venues: Fields)
    requires o.aborted
    ensures VenuesPass(step, o, month, venues) == o
    decreases |venues|
  {
    if venues != [] {
      VenuesPassFromAborted(step, o, month, venues[..|venues| - 1]);
    }
  }

  /** An abort in some month ends the month loop there: no later month runs. */
  lemma {:induction false} MonthsPassAbortedRest(step: (Run, string, string, Value) -> Outcome, o: Outcome, months: seq<string>,
                                                 venues: Fields, n: nat)
    requires n <= |months| && MonthsPass(step, o, months[..n], venues).aborted
    ensures MonthsPass(step, o, months, venues) == MonthsPass(step, o, months[..n], venues)
    decreases |months| - n
  {
    if n < |months| {
      assert months[..n + 1][..n] == months[..n];
      VenuesPassFromAborted(step, MonthsPass(step, o, months[..n], venues), months[n], venues);
      MonthsPassAbortedRest(step, o, months, venues, n + 1);
    } else {
      assert months[..n] == months;
    }
  }

  /** The playlist path of a venue's month and the record saved there. */
  function SaveRecord(r: Run, cityPath: string, venueKey: string, month: string, url: Value, created: string): Run {
    r.(files := r.files[PlaylistFilePath(cityPath, venueKey, month) := Doc(PlaylistRecord(venueKey, month, url, created))],
       dirs := r.dirs + DirChain(cityPath + "/" + venueKey))
  }

  /** The `if all_tracks:` branch: create the playlist; save it when a URL came back, and record
      the URL's last `/` piece as the created id. A URL that is not text is saved, then its
      `split` raises and the handler skips the id. */
  function Publish(s: Setup, r: Run, cityPath: string, venueKey: string, venueName: string, month: string,
                   tracks: seq<Value>, track: bool): Run {
    var k := |r.log|;
    var stamp := if s.stamped then Some(s.world.stampAt(k)) else None;
    var made := PG.CreateFlow(s.replies, k, PG.PlaylistName(s.prefix, venueName, month), PG.Description(venueName, month, stamp), tracks);
    var sent := r.(log := r.log + made.sent);
    var url := made.result;
    if !Truthy(url) then sent
    else
      var saved := SaveRecord(sent, cityPath, venueKey, month, url, s.world.isoAt(|sent.log|));
      if track && url.Str? then saved.(created := saved.created + [LastPiece(url.s, '/')]) else saved
  }

  /** One venue in one month. Every path past the `force_venue` filter formats
      `venue_info['name']` into a log line, so an entry without a name raises and ends the city. */
  function VenueMonth(s: Setup, r: Run, cityPath: string, forceVenue: Option<string>, forceAll: bool,
                      month: string, venueKey: string, info: Value, track: bool): Outcome {
    if GivenText(forceVenue) && venueKey != forceVenue.value then Outcome(r, false)
    else match Index(info, "name")
      case None => Outcome(r, true)
      case Some(name) =>
        if !(GivenText(forceVenue) || forceAll) && !s.world.needsUpdate(r.files, venueKey, month, cityPath) then Outcome(r, false)
        else
          var artists := LoadArtists(r.files, cityPath, venueKey, month);
          if !Truthy(artists) then Outcome(r, false)
          else match Iterate(artists)
            case None => Outcome(r, true)
            case Some(names) =>
              var found := ArtistTracks(TrackSearcher(s.replies, s.perArtist), |r.log|, names);
              var searched := r.(log := r.log + found.sent);
              if found.result == [] then Outcome(searched, false)
              else Outcome(Publish(s, searched, cityPath, venueKey, Display(name), month, found.result, track), false)
  }

  /** The venue-month step of a city, as a function of the run state, month, key and entry. */
  function VenueStep(s: Setup, cityPath: string, forceVenue: Option<string>, forceAll: bool, track: bool)
    : (Run, string, string, Value) -> Outcome
  {
    (r: Run, month: string, venueKey: string, info: Value) => VenueMonth(s, r, cityPath, forceVenue, forceAll, month, venueKey, info, track)
  }

  /** The venue loop of one month, in venue order, from outcome o; an abort stops it. */
  function VenuesPass(step: (Run, string, string, Value) -> Outcome, o: Outcome, month: string, venues: Fields): Outcome
    decreases |venues|
  {
    if venues == [] then o
    else
      var prev := VenuesPass(step, o, month, venues[..|venues| - 1]);
      var last := venues[|venues| - 1];
      if prev.aborted then prev else step(prev.run, month, last.0, last.1)
  }

  /** The month loop: every month runs the venue loop from where the month before it ended. */
  function MonthsPass(step: (Run, string, string, Value) -> Outcome, o: Outcome, months: seq<string>, venues: Fields): Outcome
    decreases |months|
  {
    if months == [] then o
    else VenuesPass(step, MonthsPass(step, o, months[..|months| - 1], venues), months[|months| - 1], venues)
  }

  /** The venues `test_venues` keeps, all of them when it is not given. */
  function Selected(venues: Fields, testVenues: Option<seq<string>>): Fields {
    if GivenList(testVenues) then KeepListed(venues, testVenues.value) else venues
  }

  /** The months a truthy `months_limit` keeps: `months[:months_limit]`. */
  function Window(months: seq<string>, monthsLimit: Option<int>): seq<string> {
    if monthsLimit.Some? && monthsLimit.value != 0 then TakePy(months, monthsLimit.value) else months
  }

  /** process_city_playlists: a venue configuration that is not a dict raises at `.items()`. */
  function CityPass(s: Setup, r: Run, cityPath: string, venues: Value, forceVenue: Option<string>, forceAll: bool,
                    testVenues: Option<seq<string>>, monthsLimit: Option<int>, months: seq<string>, track: bool): Outcome {
    if !venues.Object? then Outcome(r, true)
    else MonthsPass(VenueStep(s, cityPath, forceVenue, forceAll, track), Outcome(r, false), Window(months, monthsLimit),
                    Selected(venues.fields, testVenues))
  }

  /** `[d.name for d in Path(VENUE_DATA_DIR).iterdir() if d.is_dir()]`, entries in listing order. */
  function CityNames(entries: seq<string>, dirs: set<string>, dataDir: string): (r: seq<string>)
    ensures forall c :: c in r <==> c in entries && dataDir + "/" + c in dirs
  {
    if entries == [] then []
    else
      var last := entries[|entries| - 1];
      CityNames(entries[..|entries| - 1], dirs, dataDir) + (if dataDir + "/" + last in dirs then [last] else [])
  }

  /** One city of generate_playlists: no `force_venue`, and the ids always tracked. */
  function CityStep(s: Setup, dataDir: string, venuesOf: string -> Value, forceAll: bool, testVenues: Option<seq<string>>,
                    monthsLimit: Option<int>, months: seq<string>): (Run, string) -> Run
  {
    (r: Run, city: string) => CityPass(s, r, dataDir + "/" + city, venuesOf(city), None, forceAll, testVenues, monthsLimit, months, true).run
  }

  /** The city loop: one city's exception does not stop the next city. */
  function CitiesPass(city: (Run, string) -> Run, r: Run, cities: seq<string>): Run
    decreases |cities|
  {
    if cities == [] then r else city(CitiesPass(city, r, cities[..|cities| - 1]), cities[|cities| - 1])
  }

  /** The unfollow requests of the final cleanup, one per created id in order. */
  function Unfollows(ids: seq<string>): (r: seq<Request>)
  {
    seq(|ids|, i requires 0 <= i < |ids| => Unfollow(Str(ids[i])))
  }

  /** The cleanup runs in test mode unless the test playlists are preserved, and only when some
      playlist was created. */
  predicate CleansUp(testMode: bool, preserveTest: bool, created: seq<string>) {
    testMode && !preserveTest && created != []
  }

  /** The artist loop: every artist's search, the tracks extended in artist order. The loop sees
      the searches only through `search`. */
  method SearchArtists(g: PG.PlaylistGenerator, artists: seq<Value>, ghost search: (Value, nat) -> Exchange<seq<Value>>)
    returns (tracks: seq<Value>)
    requires forall a: Value, k: nat {:trigger PG.TrackSearch(g.client.replies, a, g.tracksPerArtist, k, MAX_RETRIES)} ::
      search(a, k) == PG.TrackSearch(g.client.replies, a, g.tracksPerArtist, k, MAX_RETRIES)
    modifies g.client
    ensures var e := ArtistTracks(search, |old(g.client.log)|, artists);
      tracks == e.result && g.client.log == old(g.client.log) + e.sent
  {
    tracks := [];
    ghost var sent: seq<Request> := [];
    ghost var start := |g.client.log|;
    for i := 0 to |artists|
      invariant ArtistTracks(search, start, artists[..i]) == Exchange(tracks, sent)
      invariant g.client.log == old(g.client.log) + sent
    {
      ArtistTracksSnoc(search, start, artists, i);
      var found, here := SearchOne(g, artists[i], search);
      Seqs.AppendAssoc(old(g.client.log), sent, here);
      tracks := tracks + found;
      sent := sent + here;
    }
    assert artists[..|artists|] == artists;
  }

  /** One search_artist_top_tracks call, seen through `search`. */
  method SearchOne(g: PG.PlaylistGenerator, artist: Value, ghost search: (Value, nat) -> Exchange<seq<Value>>)
    returns (tracks: seq<Value>, ghost sent: seq<Request>)
    requires forall a: Value, k: nat {:trigger PG.TrackSearch(g.client.replies, a, g.tracksPerArtist, k, MAX_RETRIES)} ::
      search(a, k) == PG.TrackSearch(g.client.replies, a, g.tracksPerArtist, k, MAX_RETRIES)
    modifies g.client
    ensures search(artist, |old(g.client.log)|) == Exchange(tracks, sent)
    ensures g.client.log == old(g.client.log) + sent
  {
    ghost var before := g.client.log;
    tracks := g.SearchArtistTopTracks(artist, MAX_RETRIES);
    sent := g.client.log[|before|..];
    assert g.client.log == before + sent;
  }

  /** The creation and, with a URL, the save and the id. */
  method PublishPlaylist(store: FileStore, g: PG.PlaylistGenerator, w: World, cityPath: string, venueKey: string,
                         venueName: string, month: string, tracks: seq<Value>, created: seq<string>, track: bool)
    returns (createdOut: seq<string>)
    modifies store, g.client
    ensures var r := Publish(Settings(g, w), Run(old(store.files), old(store.dirs), old(g.client.log), created),
      cityPath, venueKey, venueName, month, tracks, track);
      store.files == r.files && store.dirs == r.dirs && g.client.log == r.log && createdOut == r.created
  {
    var url := g.CreateVenuePlaylist(venueName, month, tracks, w.stampAt(|g.client.log|));
    createdOut := created;
    if Truthy(url) {
      SavePlaylistInfo(store, venueKey, month, url, cityPath, w.isoAt(|g.client.log|));
      if track && url.Str? {
        createdOut := created + [LastPiece(url.s, '/')];
      }
    }
  }

  /** The body of the venue loop, in the order the source takes its steps. */
  method ProcessVenueMonth(store: FileStore, g: PG.PlaylistGenerator, w: World, cityPath: string,
                           forceVenue: Option<string>, forceAll: bool, month: string, venueKey: string, info: Value,
                           created: seq<string>, track: bool)
    returns (createdOut: seq<string>, aborted: bool)
    modifies store, g.client
    ensures var o := VenueMonth(Settings(g, w), Run(old(store.files), old(store.dirs), old(g.client.log), created),
      cityPath, forceVenue, forceAll, month, venueKey, info, track);
      store.files == o.run.files && store.dirs == o.run.dirs && g.client.log == o.run.log
      && createdOut == o.run.created && aborted == o.aborted
  {
    createdOut := created;
    if GivenText(forceVenue) && venueKey != forceVenue.value {
      return created, false;
    }
    var name := Index(info, "name");
    if !(GivenText(forceVenue) || forceAll) && !w.needsUpdate(store.files, venueKey, month, cityPath) {
      return created, name.None?;
    }
    var artists := LoadArtists(store.files, cityPath, venueKey, month);
    if !Truthy(artists) {
      return created, name.None?;
    }
    var names := Iterate(artists);
    if names.None? || name.None? {
      return created, true;
    }
    var tracks := SearchArtists(g, names.value, TrackSearcher(g.client.replies, g.tracksPerArtist));
    if tracks == [] {
      return created, false;
    }
    createdOut := PublishPlaylist(store, g, w, cityPath, venueKey, Display(name.value), month, tracks, created, track);
    aborted := false;
  }

  /** process_city_playlists, for a city whose venue configuration is `venues` and whose month
      window is `months`; `track` says whether `created_playlists` was given. */
  method ProcessCityPlaylists(store: FileStore, g: PG.PlaylistGenerator, w: World, dataDir: string, city: string,
                              venues: Value, months: seq<string>, forceVenue: Option<string>, forceAll: bool,
                              testVenues: Option<seq<string>>, monthsLimit: Option<int>, created: seq<string>, track: bool)
    returns (createdOut: seq<string>)
    modifies store, g.client
    ensures var o := CityPass(Settings(g, w), Run(old(store.files), old(store.dirs), old(g.client.log), created),
      dataDir + "/" + city, venues, forceVenue, forceAll, testVenues, monthsLimit, months, track);
      store.files == o.run.files && store.dirs == o.run.dirs && g.client.log == o.run.log && createdOut == o.run.created
  {
    var cityPath := dataDir + "/" + city;
    createdOut := created;
    if !venues.Object? {
      return;
    }
    var selected := venues.fields;
    if GivenList(testVenues) {
      selected := KeepListed(selected, testVenues.value);
    }
    var window := months;
    if monthsLimit.Some? && monthsLimit.value != 0 {
      window := TakePy(months, monthsLimit.value);
    }
    createdOut := CityLoops(store, g, w, cityPath, forceVenue, forceAll, window, selected, created, track,
      VenueStep(Settings(g, w), cityPath, forceVenue, forceAll, track));
  }

  /** The month and venue loops; they see the venue step only through `step`. */
  method CityLoops(store: FileStore, g: PG.PlaylistGenerator, w: World, cityPath: string, forceVenue: Option<string>,
                   forceAll: bool, window: seq<string>, selected: Fields, created: seq<string>, track: bool,
                   ghost step: (Run, string, string, Value) -> Outcome)
    returns (createdOut: seq<string>)
    requires forall r: Run, month: string, venueKey: string, info: Value
      {:trigger VenueMonth(Settings(g, w), r, cityPath, forceVenue, forceAll, month, venueKey, info, track)} ::
      step(r, month, venueKey, info) == VenueMonth(Settings(g, w), r, cityPath, forceVenue, forceAll, month, venueKey, info, track)
    modifies store, g.client
    ensures var o := MonthsPass(step, Outcome(Run(old(store.files), old(store.dirs), old(g.client.log), created), false), window, selected);
      store.files == o.run.files && store.dirs == o.run.dirs && g.client.log == o.run.log && createdOut == o.run.created
  {
    createdOut := created;
    ghost var o0 := Outcome(Run(store.files, store.dirs, g.client.log, created), false);
    for m := 0 to |window|
      invariant MonthsPass(step, o0, window[..m], selected) == Outcome(Run(store.files, store.dirs, g.client.log, createdOut), false)
    {
      assert window[..m + 1][..m] == window[..m];
      ghost var om := Outcome(Run(store.files, store.dirs, g.client.log, createdOut), false);
      for v := 0 to |selected|
        invariant VenuesPass(step, om, window[m], selected[..v]) == Outcome(Run(store.files, store.dirs, g.client.log, createdOut), false)
      {
        assert selected[..v + 1][..v] == selected[..v];
        var aborted;
        createdOut, aborted := VenueVia(store, g, w, cityPath, forceVenue, forceAll, window[m], selected[v].0, selected[v].1,
          createdOut, track, step);
        if aborted {
          VenuesPassAbortedRest(step, om, window[m], selected, v + 1);
          MonthsPassAbortedRest(step, o0, window, selected, m + 1);
          return;
        }
      }
      assert selected[..|selected|] == selected;
    }
    assert window[..|window|] == window;
  }

  /** ProcessVenueMonth, seen through `step`. */
  method VenueVia(store: FileStore, g: PG.PlaylistGenerator, w: World, cityPath: string, forceVenue: Option<string>,
                  forceAll: bool, month: string, venueKey: string, info: Value, created: seq<string>, track: bool,
                  ghost step: (Run, string, string, Value) -> Outcome)
    returns (createdOut: seq<string>, aborted: bool)
    requires forall r: Run, month: string, venueKey: string, info: Value
      {:trigger VenueMonth(Settings(g, w), r, cityPath, forceVenue, forceAll, month, venueKey, info, track)} ::
      step(r, month, venueKey, info) == VenueMonth(Settings(g, w), r, cityPath, forceVenue, forceAll, month, venueKey, info, track)
    modifies store, g.client
    ensures step(Run(old(store.files), old(store.dirs), old(g.client.log), created), month, venueKey, info)
      == Outcome(Run(store.files, store.dirs, g.client.log, createdOut), aborted)
  {
    createdOut, aborted := ProcessVenueMonth(store, g, w, cityPath, forceVenue, forceAll, month, venueKey, info, created, track);
  }

  /** The generator's settings for the run: test mode adds the prefix and the creation stamp. */
  function RunSetup(replies: nat -> Call<Value>, perArtist: int, w: World, testMode: bool): Setup {
    Setup(replies, if testMode then TEST_NAME_PREFIX else "", testMode, perArtist, w)
  }

  /** generate_playlists. The data directory's entries are `entries`, in listing order; `venuesOf`
      is load_venue_config for a city, and `months` the month window. A failing connection ends
      the run after its `me` request; otherwise every city runs, then the cleanup unfollows the
      created playlists when CleansUp says so. */
  method GeneratePlaylists(store: FileStore, client: Client, w: World, dataDir: string, entries: seq<string>,
                           venuesOf: string -> Value, months: seq<string>, perArtist: int, testMode: bool,
                           testVenues: Option<seq<string>>, monthsLimit: Option<int>, forceAll: bool, preserveTest: bool)
    modifies store, client
    ensures !PG.Authenticated(client.replies(|old(client.log)|)) ==>
      client.log == old(client.log) + [Me] && store.files == old(store.files) && store.dirs == old(store.dirs)
    ensures PG.Authenticated(client.replies(|old(client.log)|)) ==>
      var city := CityStep(RunSetup(client.replies, perArtist, w, testMode), dataDir, venuesOf, forceAll, testVenues, monthsLimit, months);
      var r := CitiesPass(city, Run(old(store.files), old(store.dirs), old(client.log) + [Me], []), CityNames(entries, old(store.dirs), dataDir));
      store.files == r.files && store.dirs == r.dirs
      && client.log == r.log + (if CleansUp(testMode, preserveTest, r.created) then Unfollows(r.created) else [])
  {
    var g := PG.PlaylistGenerator.Connect(client, perArtist);
    if g == null {
      return;
    }
    if testMode {
      g.playlistPrefix := TEST_NAME_PREFIX;
      g.includeCreationTime := true;
    }
    assert Settings(g, w) == RunSetup(client.replies, perArtist, w, testMode);
    var cities := CityNames(entries, store.dirs, dataDir);
    var created := CitiesLoop(store, g, w, dataDir, cities, venuesOf, months, forceAll, testVenues, monthsLimit,
      CityStep(Settings(g, w), dataDir, venuesOf, forceAll, testVenues, monthsLimit, months));
    if CleansUp(testMode, preserveTest, created) {
      var cleaner := new PlaylistCleanup.PlaylistCleaner(client);
      UnfollowAll(cleaner, created);
    }
  }

  /** The loop over the cities; it sees a city only through `city`. */
  method CitiesLoop(store: FileStore, g: PG.PlaylistGenerator, w: World, dataDir: string, cities: seq<string>,
                    venuesOf: string -> Value, months: seq<string>, forceAll: bool, testVenues: Option<seq<string>>,
                    monthsLimit: Option<int>, ghost city: (Run, string) -> Run)
    returns (created: seq<string>)
    requires forall r: Run, c: string
      {:trigger CityPass(Settings(g, w), r, dataDir + "/" + c, venuesOf(c), None, forceAll, testVenues, monthsLimit, months, true)} ::
      city(r, c) == CityPass(Settings(g, w), r, dataDir + "/" + c, venuesOf(c), None, forceAll, testVenues, monthsLimit, months, true).run
    modifies store, g.client
    ensures var r := CitiesPass(city, Run(old(store.files), old(store.dirs), old(g.client.log), []), cities);
      store.files == r.files && store.dirs == r.dirs && g.client.log == r.log && created == r.created
  {
    ghost var r0 := Run(store.files, store.dirs, g.client.log, []);
    created := [];
    for i := 0 to |cities|
      invariant CitiesPass(city, r0, cities[..i]) == Run(store.files, store.dirs, g.client.log, created)
    {
      assert cities[..i + 1][..i] == cities[..i];
      created := CityVia(store, g, w, dataDir, cities[i], venuesOf, months, forceAll, testVenues, monthsLimit, created, city);
    }
    assert cities[..|cities|] == cities;
  }

  /** ProcessCityPlaylists for generate_playlists' arguments, seen through `city`. */
  method CityVia(store: FileStore, g: PG.PlaylistGenerator, w: World, dataDir: string, c: string,
                 venuesOf: string -> Value, months: seq<string>, forceAll: bool, testVenues: Option<seq<string>>,
                 monthsLimit: Option<int>, created: seq<string>, ghost city: (Run, string) -> Run)
    returns (createdOut: seq<string>)
    requires forall r: Run, c: string
      {:trigger CityPass(Settings(g, w), r, dataDir + "/" + c, venuesOf(c), None, forceAll, testVenues, monthsLimit, months, true)} ::
      city(r, c) == CityPass(Settings(g, w), r, dataDir + "/" + c, venuesOf(c), None, forceAll, testVenues, monthsLimit, months, true).run
    modifies store, g.client
    ensures city(Run(old(store.files), old(store.dirs), old(g.client.log), created), c)
      == Run(store.files, store.dirs, g.client.log, createdOut)
  {
    createdOut := ProcessCityPlaylists(store, g, w, dataDir, c, venuesOf(c), months, None, forceAll, testVenues, monthsLimit, created, true);
  }

  /** The cleanup loop: one cleanup_specific_playlist call per created id, whatever each returns. */
  method UnfollowAll(cleaner: PlaylistCleanup.PlaylistCleaner, ids: seq<string>)
    modifies cleaner.client
    ensures cleaner.client.log == old(cleaner.client.log) + Unfollows(ids)
  {
    for i := 0 to |ids|
      invariant cleaner.client.log == old(cleaner.client.log) + Unfollows(ids[..i])
    {
      var _ := cleaner.CleanupSpecificPlaylist(Str(ids[i]));
      assert Unfollows(ids[..i + 1]) == Unfollows(ids[..i]) + [Unfollow(Str(ids[i]))];
    }
    assert ids[..|ids|] == ids;
  }

  /** What the collector's save_artists_to_file writes for a venue's month is what this loader
      reads back: the month's artist names, as a list of texts. */
  lemma LoadSavedArtists(files: map<string, Document>, cityPath: string, venueKey: string, month: string,
                         artists: seq<string>, updated: string)
    ensures LoadArtists(files[ArtistsPath(cityPath, venueKey, month) := Doc(VenueStorage.ArtistRecord(venueKey, month, artists, updated))],
      cityPath, venueKey, month) == StrList(artists)
  {
    var fields := VenueStorage.ArtistRecord(venueKey, month, artists, updated).fields;
    assert Lookup(fields, "artists") == Some(StrList(artists));
  }

  /** The artist loop sends at most `bound` requests per artist when each search does. */
  lemma {:induction false} ArtistTracksSent<A, R>(search: (A, nat) -> Exchange<seq<R>>, k: nat, artists: seq<A>, bound: nat)
    requires forall a, j {:trigger search(a, j)} :: |search(a, j).sent| <= bound
    ensures |ArtistTracks(search, k, artists).sent| <= bound * |artists|
    decreases |artists|
  {
    if artists != [] {
      ArtistTracksSent(search, k, artists[..|artists| - 1], bound);
    }
  }

  /** The artist loop finds at most `bound` tracks per artist when each search does. */
  lemma {:induction false} ArtistTracksFound<A, R>(search: (A, nat) -> Exchange<seq<R>>, k: nat, artists: seq<A>, bound: nat)
    requires forall a, j {:trigger search(a, j)} :: |search(a, j).result| <= bound
    ensures |ArtistTracks(search, k, artists).result| <= bound * |artists|
    decreases |artists|
  {
    if artists != [] {
      ArtistTracksFound(search, k, artists[..|artists| - 1], bound);
    }
  }

  /** The artist loop sends only requests every search may send. */
  lemma {:induction false} ArtistTracksSendsOnly<A, R>(search: (A, nat) -> Exchange<seq<R>>, k: nat, artists: seq<A>,
                                                 ok: Request -> bool)
    requires forall a, j, q {:trigger q in search(a, j).sent} :: q in search(a, j).sent ==> ok(q)
    ensures forall q :: q in ArtistTracks(search, k, artists).sent ==> ok(q)
    decreases |artists|
  {
    if artists != [] {
      ArtistTracksSendsOnly(search, k, artists[..|artists| - 1], ok);
    }
  }

  /** One data-processing search sends at most 2 * MAX_RETRIES requests, only searches and
      top-tracks requests. */
  lemma TrackSearcherSends(replies: nat -> Call<Value>, perArtist: int)
    ensures forall a, j {:trigger TrackSearcher(replies, perArtist)(a, j)} ::
      |TrackSearcher(replies, perArtist)(a, j).sent| <= 2 * MAX_RETRIES
      && (forall q :: q in TrackSearcher(replies, perArtist)(a, j).sent ==> q.Search? || q.TopTracks?)
  {
    forall a, j: nat ensures
      |TrackSearcher(replies, perArtist)(a, j).sent| <= 2 * MAX_RETRIES
      && (forall q :: q in TrackSearcher(replies, perArtist)(a, j).sent ==> q.Search? || q.TopTracks?)
    {
      PG.TrackSearchBound(replies, a, perArtist, j, MAX_RETRIES);
      PG.TrackSearchRequests(replies, a, perArtist, j, MAX_RETRIES);
    }
  }

  /** One data-processing search keeps at most `perArtist` URIs. */
  lemma TrackSearcherFinds(replies: nat -> Call<Value>, perArtist: nat)
    ensures forall a, j {:trigger TrackSearcher(replies, perArtist)(a, j)} ::
      |TrackSearcher(replies, perArtist)(a, j).result| <= perArtist
  {
    forall a, j: nat ensures |TrackSearcher(replies, perArtist)(a, j).result| <= perArtist {
      PG.TrackSearchTruncated(replies, a, perArtist, j, MAX_RETRIES);
    }
  }

  /** With the data-processing searches: at most 2 * MAX_RETRIES requests per artist, all of them
      searches or top-tracks requests, and at most `perArtist` URIs per artist. */
  lemma ArtistTracksBounds(replies: nat -> Call<Value>, perArtist: int, k: nat, artists: seq<Value>)
    ensures var e := ArtistTracks(TrackSearcher(replies, perArtist), k, artists);
      |e.sent| <= 2 * MAX_RETRIES * |artists| && (forall q :: q in e.sent ==> q.Search? || q.TopTracks?)
      && (perArtist >= 0 ==> |e.result| <= perArtist * |artists|)
  {
    var search := TrackSearcher(replies, perArtist);
    TrackSearcherSends(replies, perArtist);
    ArtistTracksSent(search, k, artists, 2 * MAX_RETRIES);
    ArtistTracksSendsOnly(search, k, artists, (q: Request) => q.Search? || q.TopTracks?);
    if perArtist >= 0 {
      TrackSearcherFinds(replies, perArtist);
      ArtistTracksFound(search, k, artists, perArtist);
    }
  }

  /** The tracks a venue's month finds, `[]` when its artists cannot be iterated. */
  function FoundTracks(s: Setup, r: Run, cityPath: string, venueKey: string, month: string): seq<Value> {
    match Iterate(LoadArtists(r.files, cityPath, venueKey, month))
    case None => []
    case Some(names) => ArtistTracks(TrackSearcher(s.replies, s.perArtist), |r.log|, names).result
  }

  /** The files differ only by a playlist record with a non-empty URL at the venue's month. */
  ghost predicate SavedPlaylist(before: map<string, Document>, after: map<string, Document>, cityPath: string,
                                venueKey: string, month: string) {
    exists url: Value, t: string :: Truthy(url) && after == before[PlaylistFilePath(cityPath, venueKey, month) := Doc(PlaylistRecord(venueKey, month, url, t))]
  }

  /** No playlist creation among the requests. */
  predicate NoCreation(sent: seq<Request>) {
    forall q :: q in sent ==> !q.CreatePlaylist?
  }

  /** A venue's month only adds requests; the files change only by a saved record with a URL,
      and only when some track was found; with no track there is no creation at all. */
  lemma VenueMonthEffects(s: Setup, r: Run, cityPath: string, forceVenue: Option<string>, forceAll: bool,
                          month: string, venueKey: string, info: Value, track: bool)
    ensures var o := VenueMonth(s, r, cityPath, forceVenue, forceAll, month, venueKey, info, track);
      |r.log| <= |o.run.log| && o.run.log[..|r.log|] == r.log
    ensures var o := VenueMonth(s, r, cityPath, forceVenue, forceAll, month, venueKey, info, track);
      o.run.files == r.files
      || (FoundTracks(s, r, cityPath, venueKey, month) != [] && SavedPlaylist(r.files, o.run.files, cityPath, venueKey, month))
    ensures var o := VenueMonth(s, r, cityPath, forceVenue, forceAll, month, venueKey, info, track);
      FoundTracks(s, r, cityPath, venueKey, month) == [] ==> o.run.files == r.files && NoCreation(o.run.log[|r.log|..])
  {
    var o := VenueMonth(s, r, cityPath, forceVenue, forceAll, month, venueKey, info, track);
    var names := Iterate(LoadArtists(r.files, cityPath, venueKey, month));
    if names.Some? {
      var found := ArtistTracks(TrackSearcher(s.replies, s.perArtist), |r.log|, names.value);
      ArtistTracksBounds(s.replies, s.perArtist, |r.log|, names.value);
      var searched := r.(log := r.log + found.sent);
      assert searched.log[|r.log|..] == found.sent;
      if o.run != r && o.run != searched {
        assert found.result != [];
        var name := Index(info, "name").value;
        PublishEffects(s, searched, cityPath, venueKey, Display(name), month, found.result, track);
        var p := Publish(s, searched, cityPath, venueKey, Display(name), month, found.result, track);
        assert o.run == p;
        assert p.log[..|r.log|] == r.log by {
          assert p.log[..|searched.log|][..|r.log|] == p.log[..|r.log|];
        }
      }
    }
  }

  /** Publish only adds requests and saves the record exactly when a URL came back. */
  lemma PublishEffects(s: Setup, r: Run, cityPath: string, venueKey: string, venueName: string, month: string,
                       tracks: seq<Value>, track: bool)
    ensures var p := Publish(s, r, cityPath, venueKey, venueName, month, tracks, track);
      |r.log| <= |p.log| && p.log[..|r.log|] == r.log
      && (p.files == r.files || SavedPlaylist(r.files, p.files, cityPath, venueKey, month))
  {
    var k := |r.log|;
    var stamp := if s.stamped then Some(s.world.stampAt(k)) else None;
    var made := PG.CreateFlow(s.replies, k, PG.PlaylistName(s.prefix, venueName, month), PG.Description(venueName, month, stamp), tracks);
    var log := r.log + made.sent;
    assert log[..|r.log|] == r.log;
    if Truthy(made.result) {
      var t := s.world.isoAt(|log|);
      assert Truthy(made.result) && SaveRecord(r.(log := log), cityPath, venueKey, month, made.result, t).files
        == r.files[PlaylistFilePath(cityPath, venueKey, month) := Doc(PlaylistRecord(venueKey, month, made.result, t))];
    }
  }

  /** The venue entries under one key, in order. */
  function WithKey(venues: Fields, venueKey: string): (r: Fields)
    ensures forall e :: e in r <==> e in venues && e.0 == venueKey
    decreases |venues|
  {
    if venues == [] then []
    else
      var last := venues[|venues| - 1];
      WithKey(venues[..|venues| - 1], venueKey) + (if last.0 == venueKey then [last] else [])
  }

  /** A venue loop whose step passes over every other key is the loop over that key's entries. */
  lemma {:induction false} VenuesPassOneKey(step: (Run, string, string, Value) -> Outcome, o: Outcome, month: string,
                                            venues: Fields, venueKey: string)
    requires forall r, m, k, v {:trigger step(r, m, k, v)} :: k != venueKey ==> step(r, m, k, v) == Outcome(r, false)
    ensures VenuesPass(step, o, month, venues) == VenuesPass(step, o, month, WithKey(venues, venueKey))
    decreases |venues|
  {
    if venues != [] {
      var init, last := venues[..|venues| - 1], venues[|venues| - 1];
      VenuesPassOneKey(step, o, month, init, venueKey);
      if last.0 == venueKey {
        var w := WithKey(init, venueKey) + [last];
        assert w[..|w| - 1] == WithKey(init, venueKey);
      } else {
        assert WithKey(venues, venueKey) == WithKey(init, venueKey);
      }
    }
  }

  /** The month loop version of VenuesPassOneKey. */
  lemma {:induction false} MonthsPassOneKey(step: (Run, string, string, Value) -> Outcome, o: Outcome, months: seq<string>,
                                            venues: Fields, venueKey: string)
    requires forall r, m, k, v {:trigger step(r, m, k, v)} :: k != venueKey ==> step(r, m, k, v) == Outcome(r, false)
    ensures MonthsPass(step, o, months, venues) == MonthsPass(step, o, months, WithKey(venues, venueKey))
    decreases |months|
  {
    if months != [] {
      MonthsPassOneKey(step, o, months[..|months| - 1], venues, venueKey);
      VenuesPassOneKey(step, MonthsPass(step, o, months[..|months| - 1], venues), months[|months| - 1], venues, venueKey);
    }
  }

  /** With `force_venue` given, a city processes exactly that venue's entries: every other venue
      is passed over without a request, a read or a log line. */
  lemma ForcedVenueOnly(s: Setup, r: Run, cityPath: string, venues: Value, forceVenue: Option<string>, forceAll: bool,
                        testVenues: Option<seq<string>>, monthsLimit: Option<int>, months: seq<string>, track: bool)
    requires GivenText(forceVenue) && venues.Object?
    ensures var step := VenueStep(s, cityPath, forceVenue, forceAll, track);
      CityPass(s, r, cityPath, venues, forceVenue, forceAll, testVenues, monthsLimit, months, track)
      == MonthsPass(step, Outcome(r, false), Window(months, monthsLimit), WithKey(Selected(venues.fields, testVenues), forceVenue.value))
  {
    var step := VenueStep(s, cityPath, forceVenue, forceAll, track);
    MonthsPassOneKey(step, Outcome(r, false), Window(months, monthsLimit), Selected(venues.fields, testVenues), forceVenue.value);
  }

  /** Two venue loops whose steps agree everywhere agree. */
  lemma {:induction false} VenuesPassAgree(step: (Run, string, string, Value) -> Outcome, step': (Run, string, string, Value) -> Outcome,
                                           o: Outcome, month: string, venues: Fields)
    requires forall r, m, k, v {:trigger step(r, m, k, v)} :: step(r, m, k, v) == step'(r, m, k, v)
    ensures VenuesPass(step, o, month, venues) == VenuesPass(step', o, month, venues)
    decreases |venues|
  {
    if venues != [] {
      VenuesPassAgree(step, step', o, month, venues[..|venues| - 1]);
    }
  }

  /** Two month loops whose steps agree everywhere agree. */
  lemma {:induction false} MonthsPassAgree(step: (Run, string, string, Value) -> Outcome, step': (Run, string, string, Value) -> Outcome,
                                           o: Outcome, months: seq<string>, venues: Fields)
    requires forall r, m, k, v {:trigger step(r, m, k, v)} :: step(r, m, k, v) == step'(r, m, k, v)
    ensures MonthsPass(step, o, months, venues) == MonthsPass(step', o, months, venues)
    decreases |months|
  {
    if months != [] {
      MonthsPassAgree(step, step', o, months[..|months| - 1], venues);
      VenuesPassAgree(step, step', MonthsPass(step, o, months[..|months| - 1], venues), months[|months| - 1], venues);
    }
  }

  /** A forced run (`force_venue` or `force_all`) never asks needs_update: the outcome is the same
      whatever the staleness test says. */
  lemma {:induction false} ForcedIgnoresStaleness(s: Setup, needsUpdate: (map<string, Document>, string, string, string) -> bool, r: Run,
                               cityPath: string, venues: Value, forceVenue: Option<string>, forceAll: bool,
                               testVenues: Option<seq<string>>, monthsLimit: Option<int>, months: seq<string>, track: bool)
    requires GivenText(forceVenue) || forceAll
    ensures var s' := s.(world := s.world.(needsUpdate := needsUpdate));
      CityPass(s', r, cityPath, venues, forceVenue, forceAll, testVenues, monthsLimit, months, track)
      == CityPass(s, r, cityPath, venues, forceVenue, forceAll, testVenues, monthsLimit, months, track)
  {
    var s' := s.(world := s.world.(needsUpdate := needsUpdate));
    if venues.Object? {
      var step, step' := VenueStep(s', cityPath, forceVenue, forceAll, track), VenueStep(s, cityPath, forceVenue, forceAll, track);
      forall r, m, k, v ensures step(r, m, k, v) == step'(r, m, k, v) {
        ForcedVenueMonth(s, needsUpdate, r, cityPath, forceVenue, forceAll, m, k, v, track);
      }
      MonthsPassAgree(VenueStep(s', cityPath, forceVenue, forceAll, track), VenueStep(s, cityPath, forceVenue, forceAll, track),
        Outcome(r, false), Window(months, monthsLimit), Selected(venues.fields, testVenues));
    }
  }

  /** One forced venue-month does not depend on the staleness test. */
  lemma ForcedVenueMonth(s: Setup, needsUpdate: (map<string, Document>, string, string, string) -> bool, r: Run,
                         cityPath: string, forceVenue: Option<string>, forceAll: bool, month: string, venueKey: string,
                         info: Value, track: bool)
    requires GivenText(forceVenue) || forceAll
    ensures var s' := s.(world := s.world.(needsUpdate := needsUpdate));
      VenueMonth(s', r, cityPath, forceVenue, forceAll, month, venueKey, info, track)
      == VenueMonth(s, r, cityPath, forceVenue, forceAll, month, venueKey, info, track)
  {
    var s' := s.(world := s.world.(needsUpdate := needsUpdate));
    assert s'.replies == s.replies && s'.prefix == s.prefix && s'.stamped == s.stamped && s'.perArtist == s.perArtist;
    assert s'.world.stampAt == s.world.stampAt && s'.world.isoAt == s.world.isoAt;
    forall q: Run, venueName: string, tracks: seq<Value>
      ensures Publish(s', q, cityPath, venueKey, venueName, month, tracks, track) == Publish(s, q, cityPath, venueKey, venueName, month, tracks, track)
    {
    }
  }

  /** The id recorded for a playlist whose URL is the one built from its id is that id. */
  lemma IdOfPlaylistLink(id: string)
    requires '/' !in id
    ensures LastPiece(PG.PLAYLIST_URL_PREFIX + id, '/') == id
  {
    var p := "https://open.spotify.com/playlist";
    assert PG.PLAYLIST_URL_PREFIX + id == p + ['/'] + id;
    LastPieceOfAppend(p, id, '/');
  }

  /** Every playlist creation among the requests carries a name the cleanup recognises as a test
      playlist. */
  predicate TestNamed(sent: seq<Request>) {
    forall q :: q in sent && q.CreatePlaylist? ==> StartsWith(q.name, PlaylistCleanup.TEST_PREFIX)
  }

  /** Test-mode names start with the cleanup's test prefix. */
  lemma TestNameRecognised(venueName: string, month: string)
    ensures StartsWith(PG.PlaylistName(TEST_NAME_PREFIX, venueName, month), PlaylistCleanup.TEST_PREFIX)
  {
    var n := PG.PlaylistName(TEST_NAME_PREFIX, venueName, month);
    assert n[..|PlaylistCleanup.TEST_PREFIX|] == PlaylistCleanup.TEST_PREFIX;
  }

  /** In test mode a publish creates only test-named playlists. */
  lemma PublishTestNamed(s: Setup, r: Run, cityPath: string, venueKey: string, venueName: string, month: string,
                         tracks: seq<Value>, track: bool)
    requires s.prefix == TEST_NAME_PREFIX && TestNamed(r.log)
    ensures TestNamed(Publish(s, r, cityPath, venueKey, venueName, month, tracks, track).log)
  {
    var k := |r.log|;
    var stamp := if s.stamped then Some(s.world.stampAt(k)) else None;
    var name := PG.PlaylistName(s.prefix, venueName, month);
    PG.CreateFlowCreates(s.replies, k, name, PG.Description(venueName, month, stamp), tracks);
    TestNameRecognised(venueName, month);
  }

  /** In test mode a venue's month creates only test-named playlists. */
  lemma VenueMonthTestNamed(s: Setup, r: Run, cityPath: string, forceVenue: Option<string>, forceAll: bool,
                            month: string, venueKey: string, info: Value, track: bool)
    requires s.prefix == TEST_NAME_PREFIX && TestNamed(r.log)
    ensures TestNamed(VenueMonth(s, r, cityPath, forceVenue, forceAll, month, venueKey, info, track).run.log)
  {
    var names := Iterate(LoadArtists(r.files, cityPath, venueKey, month));
    if names.Some? {
      var found := ArtistTracks(TrackSearcher(s.replies, s.perArtist), |r.log|, names.value);
      ArtistTracksBounds(s.replies, s.perArtist, |r.log|, names.value);
      var searched := r.(log := r.log + found.sent);
      assert TestNamed(searched.log);
      var name := Index(info, "name");
      if name.Some? {
        PublishTestNamed(s, searched, cityPath, venueKey, Display(name.value), month, found.result, track);
      }
    }
  }

  /** A venue loop keeps any property of the run its step keeps. */
  lemma {:induction false} VenuesPassKeeps(step: (Run, string, string, Value) -> Outcome, o: Outcome, month: string,
                                           venues: Fields, inv: Run -> bool)
    requires forall r, m, k, v {:trigger step(r, m, k, v)} :: inv(r) ==> inv(step(r, m, k, v).run)
    requires inv(o.run)
    ensures inv(VenuesPass(step, o, month, venues).run)
    decreases |venues|
  {
    if venues != [] {
      VenuesPassKeeps(step, o, month, venues[..|venues| - 1], inv);
    }
  }

  /** A month loop keeps any property of the run its step keeps. */
  lemma {:induction false} MonthsPassKeeps(step: (Run, string, string, Value) -> Outcome, o: Outcome, months: seq<string>,
                                           venues: Fields, inv: Run -> bool)
    requires forall r, m, k, v {:trigger step(r, m, k, v)} :: inv(r) ==> inv(step(r, m, k, v).run)
    requires inv(o.run)
    ensures inv(MonthsPass(step, o, months, venues).run)
    decreases |months|
  {
    if months != [] {
      MonthsPassKeeps(step, o, months[..|months| - 1], venues, inv);
      VenuesPassKeeps(step, MonthsPass(step, o, months[..|months| - 1], venues), months[|months| - 1], venues, inv);
    }
  }

  /** A city loop keeps any property of the run each city keeps. */
  lemma {:induction false} CitiesPassKeeps(city: (Run, string) -> Run, r: Run, cities: seq<string>, inv: Run -> bool)
    requires forall r', c {:trigger city(r', c)} :: inv(r') ==> inv(city(r', c))
    requires inv(r)
    ensures inv(CitiesPass(city, r, cities))
    decreases |cities|
  {
    if cities != [] {
      CitiesPassKeeps(city, r, cities[..|cities| - 1], inv);
    }
  }

  /** In test mode every playlist the whole run creates is named so that a later cleanup finds it. */
  lemma TestRunTestNamed(replies: nat -> Call<Value>, perArtist: int, w: World, dataDir: string, venuesOf: string -> Value,
                         forceAll: bool, testVenues: Option<seq<string>>, monthsLimit: Option<int>, months: seq<string>,
                         r: Run, cities: seq<string>)
    requires TestNamed(r.log)
    ensures TestNamed(CitiesPass(CityStep(RunSetup(replies, perArtist, w, true), dataDir, venuesOf, forceAll, testVenues, monthsLimit, months),
      r, cities).log)
  {
    var s := RunSetup(replies, perArtist, w, true);
    var inv := (x: Run) => TestNamed(x.log);
    forall r', c | inv(r')
      ensures inv(CityStep(s, dataDir, venuesOf, forceAll, testVenues, monthsLimit, months)(r', c))
    {
      var venues := venuesOf(c);
      var cityPath := dataDir + "/" + c;
      if venues.Object? {
        var step := VenueStep(s, cityPath, None, forceAll, true);
        forall r'', m, k, v | inv(r'') ensures inv(step(r'', m, k, v).run) {
          VenueMonthTestNamed(s, r'', cityPath, None, forceAll, m, k, v, true);
        }
        MonthsPassKeeps(step, Outcome(r', false), Window(months, monthsLimit), Selected(venues.fields, testVenues), inv);
      }
    }
    CitiesPassKeeps(CityStep(s, dataDir, venuesOf, forceAll, testVenues, monthsLimit, months), r, cities, inv);
  }
}
