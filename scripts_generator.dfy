/** scripts/playlist_data/generator.py: the older playlist generator of the scripts pipeline. It
    searches once per artist, keeps the first track, and builds an unprefixed playlist whose URL it
    chooses by the same fallback chain as the data-processing generator. */
module ScriptsGenerator {
  import opened Wrappers
  import opened Seqs
  import opened Values
  import opened Spotify
  import ArtistSearch
  import opened PlaylistGenerator

  /** `config.TRACKS_PER_ARTIST` of the scripts configuration. */
  const TRACKS_PER_ARTIST := 1

  /** The artist id of a search reply: `Returned(None)` when the items are empty, `Raised` when
      any lookup on the way raises. */
  function FirstHitId(results: Value): Call<Option<Value>> {
    match ArtistSearch.SearchItems(results)
    case None => Raised
    case Some(items) =>
      if !Truthy(items) then Returned(None)
      else if !items.List? then Raised
      else match Index(items.items[0], "id")
        case None => Raised
        case Some(id) => Returned(Some(id))
  }

  /** `[track['uri'] for track in tracks]`: raises on the first track without a `uri`. */
  function EveryUri(tracks: seq<Value>): Call<seq<Value>>
    decreases |tracks|
  {
    if tracks == [] then Returned([])
    else match Index(tracks[0], "uri")
      case None => Raised
      case Some(u) =>
        match EveryUri(tracks[1..])
        case Raised => Raised
        case Returned(rest) => Returned([u] + rest)
  }

  /** The URIs of the first TRACKS_PER_ARTIST tracks of a top-tracks reply. */
  function FirstUris(top: Value): Call<seq<Value>> {
    match Index(top, "tracks")
    case None => Raised
    case Some(tracks) =>
      match SlicePy(tracks, TRACKS_PER_ARTIST)
      case None => Raised
      case Some(first) =>
        match Iterate(first)
        case None => Raised
        case Some(items) => EveryUri(items)
  }

  /** search_artist_top_tracks from request k on: one attempt, and `[]` for any exception. */
  function SingleSearch(replies: nat -> Call<Value>, artist: Value, k: nat): Exchange<seq<Value>> {
    match replies(k)
    case Raised => Exchange([], [Search(artist)])
    case Returned(results) =>
      match FirstHitId(results)
      case Raised => Exchange([], [Search(artist)])
      case Returned(None) => Exchange([], [Search(artist)])
      case Returned(Some(id)) =>
        var uris := match replies(k + 1)
          case Raised => []
          case Returned(top) => (match FirstUris(top) case Raised => [] case Returned(us) => us);
        Exchange(uris, [Search(artist), TopTracks(id, DEFAULT_MARKET)])
  }

  /** The URL: `external_urls.spotify`, else `href`, else one built from `playlist['id']`. */
  function LinkOf(playlist: Value): Call<Value> {
    match PyIn("external_urls", playlist)
    case None => Raised
    case Some(hasUrls) =>
      var urls := Index(playlist, "external_urls");
      if hasUrls && urls.None? then Raised
      else if hasUrls && PyIn("spotify", urls.value).None? then Raised
      else if hasUrls && PyIn("spotify", urls.value) == Some(true) then
        match Index(urls.value, "spotify") case None => Raised case Some(u) => Returned(u)
      else match PyIn("href", playlist)
        case None => Raised
        case Some(true) => (match Index(playlist, "href") case None => Raised case Some(h) => Returned(h))
        case Some(false) =>
          match Index(playlist, "id")
          case None => Raised
          case Some(id) => Returned(Str(PLAYLIST_URL_PREFIX + Display(id)))
  }

  /** What follows the creation: with tracks, the batches (each needs `playlist['id']`), then the
      URL; any exception gives `""`. */
  function AfterCreate(replies: nat -> Call<Value>, k: nat, playlist: Value, uris: seq<Value>): Exchange<Value> {
    if uris == [] then Exchange(match LinkOf(playlist) case Raised => Str("") case Returned(u) => u, [])
    else match Index(playlist, "id")
      case None => Exchange(Str(""), [])
      case Some(pid) =>
        var added := AddBatches(replies, k, pid, Chunks(uris, BATCH_SIZE), 0);
        var url := match LinkOf(playlist) case Raised => Str("") case Returned(u) => u;
        Exchange(if added.result then url else Str(""), added.sent)
  }

  /** create_venue_playlist from request k on: me, the creation, then AfterCreate. */
  function CreateOnce(replies: nat -> Call<Value>, k: nat, name: string, description: string, uris: seq<Value>): Exchange<Value> {
    match replies(k)
    case Raised => Exchange(Str(""), [Me])
    case Returned(user) =>
      match Index(user, "id")
      case None => Exchange(Str(""), [Me])
      case Some(uid) =>
        var create := CreatePlaylist(uid, name, description);
        match replies(k + 1)
        case Raised => Exchange(Str(""), [Me, create])
        case Returned(playlist) =>
          var rest := AfterCreate(replies, k + 2, playlist, uris);
          Exchange(rest.result, [Me, create] + rest.sent)
  }

  /** The refresh token is configured: set and not empty. */
  predicate HasRefreshToken(token: Option<string>) {
    token.Some? && token.value != ""
  }

  class ScriptsGenerator {
    const client: Client

    constructor (client: Client)
      ensures this.client == client
    {
      this.client := client;
    }

    /** `PlaylistGenerator()`: without a refresh token it raises before any request; otherwise
        the `me` request must return a user with a `display_name`, or the error is re-raised. */
    static method Connect(client: Client, refreshToken: Option<string>) returns (g: ScriptsGenerator?)
      modifies client
      ensures !HasRefreshToken(refreshToken) ==> g == null && client.log == old(client.log)
      ensures HasRefreshToken(refreshToken) ==> client.log == old(client.log) + [Me]
      ensures g != null <==> (HasRefreshToken(refreshToken) && client.replies(|old(client.log)|).Returned?
                              && Index(client.replies(|old(client.log)|).value, "display_name").Some?)
      ensures g != null ==> fresh(g) && g.client == client
    {
      if !HasRefreshToken(refreshToken) {
        return null;
      }
      var user := client.Send(Me);
      if user.Raised? || Index(user.value, "display_name").None? {
        return null;
      }
      g := new ScriptsGenerator(client);
    }

    /** search_artist_top_tracks: a single attempt. */
    method SearchArtistTopTracks(artist: Value) returns (uris: seq<Value>)
      modifies client
      ensures var e := SingleSearch(client.replies, artist, |old(client.log)|);
        uris == e.result && client.log == old(client.log) + e.sent
    {
      var results := client.Send(Search(artist));
      if results.Raised? {
        return [];
      }
      var hit := FirstHitId(results.value);
      if hit.Raised? || hit.value.None? {
        return [];
      }
      var top := client.Send(TopTracks(hit.value.value, DEFAULT_MARKET));
      assert old(client.log) + [Search(artist)] + [TopTracks(hit.value.value, DEFAULT_MARKET)]
        == old(client.log) + [Search(artist), TopTracks(hit.value.value, DEFAULT_MARKET)];
      if top.Raised? {
        return [];
      }
      var first := FirstUris(top.value);
      uris := if first.Raised? then [] else first.value;
    }

    /** create_venue_playlist: no name prefix and no creation time. */
    method CreateVenuePlaylist(venueName: string, month: string, trackUris: seq<Value>) returns (url: Value)
      modifies client
      ensures var e := CreateOnce(client.replies, |old(client.log)|, PlaylistName("", venueName, month),
        Description(venueName, month, None), trackUris);
        url == e.result && client.log == old(client.log) + e.sent
    {
      url := CreateOnceNamed(PlaylistName("", venueName, month), Description(venueName, month, None), trackUris);
    }

    /** Me, then the creation under the given name and description, then AddAndLinkOnce. */
    method CreateOnceNamed(name: string, description: string, trackUris: seq<Value>) returns (url: Value)
      modifies client
      ensures var e := CreateOnce(client.replies, |old(client.log)|, name, description, trackUris);
        url == e.result && client.log == old(client.log) + e.sent
    {
      ghost var k := |client.log|;
      ghost var e := CreateOnce(client.replies, k, name, description, trackUris);
      var user := client.Send(Me);
      if user.Raised? || Index(user.value, "id").None? {
        assert e == Exchange(Str(""), [Me]);
        return Str("");
      }
      var create := CreatePlaylist(Index(user.value, "id").value, name, description);
      var playlist := client.Send(create);
      assert old(client.log) + [Me] + [create] == old(client.log) + [Me, create];
      if playlist.Raised? {
        assert e == Exchange(Str(""), [Me, create]);
        return Str("");
      }
      ghost var rest := AfterCreate(client.replies, k + 2, playlist.value, trackUris);
      assert e == Exchange(rest.result, [Me, create] + rest.sent);
      url := AddAndLinkOnce(playlist.value, trackUris);
      Seqs.AppendAssoc(old(client.log), [Me, create], rest.sent);
    }

    /** What follows the creation: the batches, then the URL. */
    method AddAndLinkOnce(p: Value, trackUris: seq<Value>) returns (url: Value)
      modifies client
      ensures var e := AfterCreate(client.replies, |old(client.log)|, p, trackUris);
        url == e.result && client.log == old(client.log) + e.sent
    {
      if trackUris != [] {
        if Index(p, "id").None? {
          return Str("");
        }
        var ok := AddInBatches(client, Index(p, "id").value, trackUris);
        if !ok {
          return Str("");
        }
      }
      var link := LinkOf(p);
      url := if link.Raised? then Str("") else link.value;
    }
  }

  /** The URIs are those of the tracks, in order, exactly when every track has one. */
  lemma {:induction false} EveryUriSound(tracks: seq<Value>)
    ensures EveryUri(tracks).Returned? <==> forall i :: 0 <= i < |tracks| ==> Index(tracks[i], "uri").Some?
    ensures EveryUri(tracks).Returned? ==> |EveryUri(tracks).value| == |tracks|
    ensures EveryUri(tracks).Returned? ==>
      forall i :: 0 <= i < |tracks| ==> EveryUri(tracks).value[i] == Index(tracks[i], "uri").value
    decreases |tracks|
  {
    if tracks != [] {
      EveryUriSound(tracks[1..]);
      assert forall i :: 1 <= i < |tracks| ==> tracks[i] == tracks[1..][i - 1];
    }
  }

  /** Where every track has a `uri`, both generators' comprehensions agree. */
  lemma {:induction false} EveryUriAgreesWithFilter(tracks: seq<Value>)
    requires forall i :: 0 <= i < |tracks| ==> Index(tracks[i], "uri").Some?
    ensures EveryUri(tracks) == UrisOf(tracks)
    decreases |tracks|
  {
    if tracks != [] {
      assert Index(tracks[0], "uri").Some?;
      assert forall i :: 1 <= i < |tracks| ==> tracks[i] == tracks[1..][i - 1];
      EveryUriAgreesWithFilter(tracks[1..]);
    }
  }

  /** At most one URI per artist, and at most two requests, the first being the search. */
  lemma SingleSearchBounds(replies: nat -> Call<Value>, artist: Value, k: nat)
    ensures var e := SingleSearch(replies, artist, k);
      |e.result| <= TRACKS_PER_ARTIST && 1 <= |e.sent| <= 2 && e.sent[0] == Search(artist)
  {
    if replies(k).Returned? && FirstHitId(replies(k).value).Returned? && FirstHitId(replies(k).value).value.Some?
      && replies(k + 1).Returned?
    {
      var top := replies(k + 1).value;
      if FirstUris(top).Returned? {
        var first := SlicePy(Index(top, "tracks").value, TRACKS_PER_ARTIST).value;
        IterateItems(first);
        EveryUriSound(Iterate(first).value);
      }
    }
  }

  /** The scripts URL chain chooses the same URL, or fails, exactly as the data-processing one. */
  lemma LinkAgrees(playlist: Value)
    ensures LinkOf(playlist) == PlaylistUrl(playlist)
  {
  }

  /** The requests start with me and the creation under the unprefixed name. */
  lemma CreateOnceRequests(replies: nat -> Call<Value>, k: nat, name: string, description: string, uris: seq<Value>)
    requires replies(k).Returned? && Index(replies(k).value, "id").Some?
    ensures var sent := CreateOnce(replies, k, name, description, uris).sent;
      |sent| >= 2 && sent[0] == Me && sent[1] == CreatePlaylist(Index(replies(k).value, "id").value, name, description)
  {
  }

  /** With no tracks nothing is added. */
  lemma CreateOnceNoTracks(replies: nat -> Call<Value>, k: nat, name: string, description: string)
    ensures |CreateOnce(replies, k, name, description, []).sent| <= 2
  {
  }

  /** When every add call returns, the requests after the creation are the batches in order. */
  lemma AfterCreateAddsAll(replies: nat -> Call<Value>, k: nat, playlist: Value, uris: seq<Value>)
    requires uris != [] && Index(playlist, "id").Some?
    requires AddBatches(replies, k, Index(playlist, "id").value, Chunks(uris, BATCH_SIZE), 0).result
    ensures var e := AfterCreate(replies, k, playlist, uris);
      var batches := Chunks(uris, BATCH_SIZE);
      |e.sent| == |batches| && (forall j :: 0 <= j < |batches| ==> e.sent[j] == AddItems(Index(playlist, "id").value, batches[j]))
      && e.result == (match LinkOf(playlist) case Raised => Str("") case Returned(u) => u)
  {
    AddBatchesAll(replies, k, Index(playlist, "id").value, Chunks(uris, BATCH_SIZE), 0);
  }

  /** An add call that raises makes the whole call return `""`. */
  lemma AfterCreateFailedAdd(replies: nat -> Call<Value>, k: nat, playlist: Value, uris: seq<Value>)
    requires uris != [] && Index(playlist, "id").Some?
    requires !AddBatches(replies, k, Index(playlist, "id").value, Chunks(uris, BATCH_SIZE), 0).result
    ensures AfterCreate(replies, k, playlist, uris).result == Str("")
  {
  }
}
