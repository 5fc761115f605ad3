/** data_processing/playlist_data/generator.py: the playlist generator of the data-processing
    pipeline. It looks up an artist's top tracks with retries, and creates a playlist named after a
    venue and a month, adds the tracks to it in batches and reports the playlist's URL. */
module PlaylistGenerator {
  import opened Wrappers
  import opened Strings
  import opened Seqs
  import opened Values
  import opened Spotify
  import ArtistSearch

  /** The market spotipy's `artist_top_tracks` uses when none is given. */
  const DEFAULT_MARKET := "US"
  /** The most tracks one `playlist_add_items` call carries. */
  const BATCH_SIZE := 100
  const PLAYLIST_URL_PREFIX := "https://open.spotify.com/playlist/"

  /** The artist id a search reply leads to: `Returned(None)` is one of the early `return []`
      exits (no reply, no `artists` entry, no items), `Raised` an exception inside the attempt. */
  function HitId(results: Value): Call<Option<Value>> {
    if !Truthy(results) then Returned(None)
    else match PyIn("artists", results)
      case None => Raised
      case Some(false) => Returned(None)
      case Some(true) =>
        match ArtistSearch.SearchItems(results)
        case None => Raised
        case Some(items) =>
          if !Truthy(items) then Returned(None)
          else if !items.List? then Raised
          else match Index(items.items[0], "id")
            case None => Raised
            case Some(id) => Returned(Some(id))
  }

  /** The track carries a `uri` entry. */
  predicate HasUri(track: Value) {
    PyIn("uri", track) == Some(true)
  }

  /** What one track contributes to the comprehension: its URI, nothing, or an exception. */
  function TrackUri(track: Value): Call<seq<Value>> {
    match PyIn("uri", track)
    case None => Raised
    case Some(false) => Returned([])
    case Some(true) => match Index(track, "uri") case None => Raised case Some(u) => Returned([u])
  }

  /** `[track['uri'] for track in tracks if 'uri' in track]` */
  function UrisOf(tracks: seq<Value>): Call<seq<Value>>
    decreases |tracks|
  {
    if tracks == [] then Returned([])
    else
      match TrackUri(tracks[0])
      case Raised => Raised
      case Returned(h) =>
        match UrisOf(tracks[1..])
        case Raised => Raised
        case Returned(rest) => Returned(h + rest)
  }

  /** The URIs of the first `perArtist` tracks of a top-tracks reply; `Returned([])` is the early
      exit for a reply without tracks. */
  function TopUris(top: Value, perArtist: int): Call<seq<Value>> {
    if !Truthy(top) then Returned([])
    else match PyIn("tracks", top)
      case None => Raised
      case Some(false) => Returned([])
      case Some(true) =>
        match Index(top, "tracks")
        case None => Raised
        case Some(tracks) =>
          match SlicePy(tracks, perArtist)
          case None => Raised
          case Some(first) =>
            match Iterate(first)
            case None => Raised
            case Some(items) => UrisOf(items)
  }

  /** One attempt of search_artist_top_tracks starting at request k: a search, and the top-tracks
      request for the hit when there is one. */
  function SearchThenTracks(replies: nat -> Call<Value>, artist: Value, perArtist: int, k: nat): Exchange<Call<seq<Value>>> {
    match replies(k)
    case Raised => Exchange(Raised, [Search(artist)])
    case Returned(results) =>
      match HitId(results)
      case Raised => Exchange(Raised, [Search(artist)])
      case Returned(None) => Exchange(Returned([]), [Search(artist)])
      case Returned(Some(id)) =>
        var outcome := match replies(k + 1) case Raised => Raised case Returned(top) => TopUris(top, perArtist);
        Exchange(outcome, [Search(artist), TopTracks(id, DEFAULT_MARKET)])
  }

  /** The attempt starting at each request number. */
  function TopTracksAttempt(replies: nat -> Call<Value>, artist: Value, perArtist: int): nat -> Exchange<Call<seq<Value>>> {
    (k: nat) => SearchThenTracks(replies, artist, perArtist, k)
  }

  /** The result of search_artist_top_tracks: the first attempt that does not raise, or `[]`. */
  function TrackSearch(replies: nat -> Call<Value>, artist: Value, perArtist: int, k: nat, maxRetries: int): Exchange<seq<Value>> {
    var r := Retry(TopTracksAttempt(replies, artist, perArtist), k, maxRetries);
    Exchange(if r.result.Some? then r.result.value else [], r.sent)
  }

  /** `playlist_add_items` for the batches from index i on, stopping at the first call that
      raises; the result says whether every call returned. */
  function AddBatches(replies: nat -> Call<Value>, k: nat, id: Value, batches: seq<seq<Value>>, i: nat): Exchange<bool>
    decreases |batches| - i
  {
    if i >= |batches| then Exchange(true, [])
    else match replies(k)
      case Raised => Exchange(false, [AddItems(id, batches[i])])
      case Returned(_) =>
        var rest := AddBatches(replies, k + 1, id, batches, i + 1);
        Exchange(rest.result, [AddItems(id, batches[i])] + rest.sent)
  }

  /** The playlist's URL: `external_urls.spotify`, else `href`, else one built from the id;
      `Raised` is the `ValueError` of a reply with none of them or a lookup that raises. */
  function PlaylistUrl(playlist: Value): Call<Value> {
    match PyIn("external_urls", playlist)
    case None => Raised
    case Some(hasUrls) =>
      var urls := Index(playlist, "external_urls");
      if hasUrls && urls.None? then Raised
      else if hasUrls && PyIn("spotify", urls.value).None? then Raised
      else if hasUrls && PyIn("spotify", urls.value) == Some(true) then
        match Index(urls.value, "spotify") case None => Raised case Some(u) => Returned(u)
      else HrefOrId(playlist)
  }

  /** The URL chain after `external_urls`: `href`, else one built from the id. */
  function HrefOrId(playlist: Value): Call<Value> {
    match PyIn("href", playlist)
    case None => Raised
    case Some(true) => (match Index(playlist, "href") case None => Raised case Some(h) => Returned(h))
    case Some(false) =>
      match PyIn("id", playlist)
      case Some(true) =>
        (match Index(playlist, "id") case None => Raised case Some(id) => Returned(Str(PLAYLIST_URL_PREFIX + Display(id))))
      case _ => Raised
  }

  /** The batch loop after i calls that returned. */
  ghost predicate BatchesResume(replies: nat -> Call<Value>, start: nat, id: Value, batches: seq<seq<Value>>, sent: seq<Request>, i: nat) {
    var rest := AddBatches(replies, start + i, id, batches, i);
    AddBatches(replies, start, id, batches, 0) == Exchange(rest.result, sent + rest.sent)
  }

  /** An add call that returned lets the loop go on with the next batch. */
  lemma BatchReturned(replies: nat -> Call<Value>, start: nat, id: Value, batches: seq<seq<Value>>, sent: seq<Request>, i: nat)
    requires BatchesResume(replies, start, id, batches, sent, i) && i < |batches| && replies(start + i).Returned?
    ensures BatchesResume(replies, start, id, batches, sent + [AddItems(id, batches[i])], i + 1)
  {
    var rest := AddBatches(replies, start + i + 1, id, batches, i + 1);
    assert sent + ([AddItems(id, batches[i])] + rest.sent) == (sent + [AddItems(id, batches[i])]) + rest.sent;
  }

  /** An add call that raised ends the loop unsuccessfully with that call. */
  lemma BatchRaised(replies: nat -> Call<Value>, start: nat, id: Value, batches: seq<seq<Value>>, sent: seq<Request>, i: nat)
    requires BatchesResume(replies, start, id, batches, sent, i) && i < |batches| && replies(start + i).Raised?
    ensures AddBatches(replies, start, id, batches, 0) == Exchange(false, sent + [AddItems(id, batches[i])])
  {
  }

  /** After the last batch the loop has succeeded. */
  lemma BatchesDone(replies: nat -> Call<Value>, start: nat, id: Value, batches: seq<seq<Value>>, sent: seq<Request>)
    requires BatchesResume(replies, start, id, batches, sent, |batches|)
    ensures AddBatches(replies, start, id, batches, 0) == Exchange(true, sent)
  {
    assert sent + [] == sent;
  }

  /** The URL, or the empty text the handler returns when choosing it raised. */
  function UrlOrEmpty(playlist: Value): Value {
    match PlaylistUrl(playlist) case Raised => Str("") case Returned(u) => u
  }

  /** `user_response['id']` after the check that it is there. */
  function UserId(user: Value): Call<Value> {
    if !Truthy(user) || PyIn("id", user) != Some(true) then Raised
    else match Index(user, "id") case None => Raised case Some(id) => Returned(id)
  }

  /** create_venue_playlist from request k on, as a function of the replies: me, create, the
      batches (only with tracks and a playlist id) and the URL; any exception gives `""`. */
  function CreateFlow(replies: nat -> Call<Value>, k: nat, name: string, description: string, uris: seq<Value>): Exchange<Value> {
    match replies(k)
    case Raised => Exchange(Str(""), [Me])
    case Returned(user) =>
      match UserId(user)
      case Raised => Exchange(Str(""), [Me])
      case Returned(uid) =>
        var create := CreatePlaylist(uid, name, description);
        match replies(k + 1)
        case Raised => Exchange(Str(""), [Me, create])
        case Returned(playlist) =>
          var rest := Created(replies, k + 2, playlist, uris);
          Exchange(rest.result, [Me, create] + rest.sent)
  }

  /** What follows a playlist creation that returned. */
  function Created(replies: nat -> Call<Value>, k: nat, playlist: Value, uris: seq<Value>): Exchange<Value> {
    if !Truthy(playlist) then Exchange(Str(""), [])
    else match PyIn("id", playlist)
      case None => Exchange(Str(""), [])
      case Some(hasId) =>
        if uris != [] && hasId then
          match Index(playlist, "id")
          case None => Exchange(Str(""), [])
          case Some(pid) =>
            var added := AddBatches(replies, k, pid, Chunks(uris, BATCH_SIZE), 0);
            Exchange(if added.result then UrlOrEmpty(playlist) else Str(""), added.sent)
        else Exchange(UrlOrEmpty(playlist), [])
  }

  /** `f"{prefix}{venue_name} - {month.replace('_', ' ').title()}"` */
  function PlaylistName(prefix: string, venueName: string, month: string): string {
    prefix + venueName + " - " + Title(ReplaceChar(month, '_', " "))
  }

  /** The playlist description; with a creation stamp it ends in `" (Created: <stamp>)"`. */
  function Description(venueName: string, month: string, stamp: Option<string>): string {
    "Top tracks from artists playing at " + venueName + " in " + month
      + (if stamp.Some? then " (Created: " + stamp.value + ")" else "")
  }

  /** The `for i in range(0, len(track_uris), 100)` loop; false when a call raised. */
  method AddInBatches(client: Client, id: Value, trackUris: seq<Value>) returns (ok: bool)
    modifies client
    ensures var e := AddBatches(client.replies, |old(client.log)|, id, Chunks(trackUris, BATCH_SIZE), 0);
      ok == e.result && client.log == old(client.log) + e.sent
  {
    var batches := Chunks(trackUris, BATCH_SIZE);
    ghost var start := |client.log|;
    ghost var sentHere: seq<Request> := [];
    for i := 0 to |batches|
      invariant |sentHere| == i && client.log == old(client.log) + sentHere
      invariant BatchesResume(client.replies, start, id, batches, sentHere, i)
    {
      var reply := client.Send(AddItems(id, batches[i]));
      AppendAssoc(old(client.log), sentHere, [AddItems(id, batches[i])]);
      if reply.Raised? {
        BatchRaised(client.replies, start, id, batches, sentHere, i);
        return false;
      }
      BatchReturned(client.replies, start, id, batches, sentHere, i);
      sentHere := sentHere + [AddItems(id, batches[i])];
    }
    BatchesDone(client.replies, start, id, batches, sentHere);
    return true;
  }

  /** The `me` reply lets the constructor finish: it returned, and when it is truthy the test
      `'display_name' in user` can be evaluated (a number or `True` makes `in` raise `TypeError`)
      and, when that test holds, `user['display_name']` can be read (a text or a list that holds
      "display_name" passes `in` but cannot be indexed by a text). A user without a
      `display_name` is only reported. */
  predicate Authenticated(reply: Call<Value>) {
    reply.Returned?
    && (Truthy(reply.value) ==>
          PyIn("display_name", reply.value).Some?
          && (PyIn("display_name", reply.value) == Some(true) ==> Index(reply.value, "display_name").Some?))
  }

  /** A truthy scalar reply raises, a falsy one does not, a text or a list holding
      "display_name" raises at the lookup, and a dict is accepted with or without a
      `display_name`. */
  lemma AuthenticatedReplies(n: int, fields: Fields)
    ensures n != 0 ==> !Authenticated(Returned(Num(n)))
    ensures !Authenticated(Returned(Bool(true))) && Authenticated(Returned(Bool(false)))
    ensures Authenticated(Returned(Null)) && Authenticated(Returned(Num(0)))
    ensures !Authenticated(Returned(Str("display_name"))) && Authenticated(Returned(Str("user")))
    ensures !Authenticated(Returned(List([Str("display_name")]))) && Authenticated(Returned(List([Str("user")])))
    ensures Authenticated(Returned(Object(fields))) && !Authenticated(Raised)
  {
    assert Contains("display_name", "display_name") by {
      assert "display_name"[0..|"display_name"|] == "display_name";
    }
  }

  class PlaylistGenerator {
    /** Put in front of every playlist name, e.g. "[TEST] ". */
    var playlistPrefix: string
    /** Whether the description records the creation time. */
    var includeCreationTime: bool
    const client: Client
    /** `config.TRACKS_PER_ARTIST` of the data-processing configuration. */
    const tracksPerArtist: int

    /** The generator's state once authenticated: no prefix, no creation time. */
    constructor (client: Client, tracksPerArtist: int)
      ensures playlistPrefix == "" && !includeCreationTime
      ensures this.client == client && this.tracksPerArtist == tracksPerArtist
    {
      playlistPrefix := "";
      includeCreationTime := false;
      this.client := client;
      this.tracksPerArtist := tracksPerArtist;
    }

    /** `PlaylistGenerator()`: the `me` request that tests the connection; the constructor
        re-raises its exception (`null` here), and so it does when the reply is truthy but cannot
        be asked `'display_name' in user`, or passes that test but cannot be indexed by it. */
    static method Connect(client: Client, tracksPerArtist: int) returns (g: PlaylistGenerator?)
      modifies client
      ensures client.log == old(client.log) + [Me]
      ensures g != null <==> Authenticated(client.replies(|old(client.log)|))
      ensures g != null ==> fresh(g) && g.client == client && g.tracksPerArtist == tracksPerArtist
      ensures g != null ==> g.playlistPrefix == "" && !g.includeCreationTime
    {
      var user := client.Send(Me);
      if user.Raised? || !Authenticated(user) {
        return null;
      }
      g := new PlaylistGenerator(client, tracksPerArtist);
    }

    /** One attempt: the search and, when it finds an artist, the top-tracks request. */
    method SearchAttempt(artist: Value, ghost attempts: nat -> Exchange<Call<seq<Value>>>) returns (r: Call<seq<Value>>, ghost sent: seq<Request>)
      requires forall k: nat {:trigger SearchThenTracks(client.replies, artist, tracksPerArtist, k)} ::
        attempts(k) == SearchThenTracks(client.replies, artist, tracksPerArtist, k)
      modifies client
      ensures Exchange(r, sent) == attempts(|old(client.log)|)
      ensures client.log == old(client.log) + sent
    {
      assert attempts(|client.log|) == SearchThenTracks(client.replies, artist, tracksPerArtist, |client.log|);
      sent := [Search(artist)];
      var results := client.Send(Search(artist));
      if results.Raised? {
        return Raised, sent;
      }
      var hit := HitId(results.value);
      if hit.Raised? {
        return Raised, sent;
      }
      if hit.value.None? {
        return Returned([]), sent;
      }
      var top := client.Send(TopTracks(hit.value.value, DEFAULT_MARKET));
      sent := sent + [TopTracks(hit.value.value, DEFAULT_MARKET)];
      if top.Raised? {
        return Raised, sent;
      }
      r := TopUris(top.value, tracksPerArtist);
    }

    /** search_artist_top_tracks: up to max_retries attempts; `[]` when all of them raise. */
    method SearchArtistTopTracks(artist: Value, maxRetries: int) returns (uris: seq<Value>)
      modifies client
      ensures var e := TrackSearch(client.replies, artist, tracksPerArtist, |old(client.log)|, maxRetries);
        uris == e.result && client.log == old(client.log) + e.sent
    {
      uris := RetryAttempts(artist, maxRetries, TopTracksAttempt(client.replies, artist, tracksPerArtist));
    }

    /** The retry loop, for attempts known to the loop only at the positions it reaches. */
    method RetryAttempts(artist: Value, maxRetries: int, ghost attempts: nat -> Exchange<Call<seq<Value>>>) returns (uris: seq<Value>)
      requires forall k: nat {:trigger SearchThenTracks(client.replies, artist, tracksPerArtist, k)} ::
        attempts(k) == SearchThenTracks(client.replies, artist, tracksPerArtist, k)
      modifies client
      ensures var e := Retry(attempts, |old(client.log)|, maxRetries);
        uris == (if e.result.Some? then e.result.value else []) && client.log == old(client.log) + e.sent
    {
      ghost var start := |client.log|;
      ghost var sentHere: seq<Request> := [];
      assert Resumes(attempts, start, maxRetries, sentHere, maxRetries) by {
        ResumesAtStart(attempts, start, maxRetries);
      }
      var attempt := 0;
      while attempt < maxRetries
        invariant 0 <= attempt
        invariant client.log == old(client.log) + sentHere
        invariant Resumes(attempts, start, maxRetries, sentHere, maxRetries - attempt)
      {
        ghost var before := client.log;
        var r, here := SearchAttempt(artist, attempts);
        assert attempts(|before|) == Exchange(r, here);
        AppendAssoc(old(client.log), sentHere, here);
        if r.Returned? {
          assert Retry(attempts, start, maxRetries) == Exchange(Some(r.value), sentHere + here) by {
            ResumeReturned(attempts, start, maxRetries, sentHere, maxRetries - attempt);
          }
          return r.value;
        }
        assert Resumes(attempts, start, maxRetries, sentHere + here, maxRetries - attempt - 1) by {
          ResumeAfterRaise(attempts, start, maxRetries, sentHere, maxRetries - attempt);
        }
        sentHere := sentHere + here;
        attempt := attempt + 1;
      }
      assert Retry(attempts, start, maxRetries) == Exchange(None, sentHere) by {
        ResumeExhausted(attempts, start, maxRetries, sentHere, maxRetries - attempt);
      }
      return [];
    }

    /** create_venue_playlist; `timestamp` is the time of the call, "%Y-%m-%d %H:%M:%S". */
    method CreateVenuePlaylist(venueName: string, month: string, trackUris: seq<Value>, timestamp: string) returns (url: Value)
      modifies client
      ensures var e := CreateFlow(client.replies, |old(client.log)|, PlaylistName(playlistPrefix, venueName, month),
        Description(venueName, month, if includeCreationTime then Some(timestamp) else None), trackUris);
        url == e.result && client.log == old(client.log) + e.sent
    {
      var name := PlaylistName(playlistPrefix, venueName, month);
      var description := Description(venueName, month, if includeCreationTime then Some(timestamp) else None);
      ghost var k := |client.log|;
      ghost var e := CreateFlow(client.replies, k, name, description, trackUris);
      var user := client.Send(Me);
      if user.Raised? || UserId(user.value).Raised? {
        assert e == Exchange(Str(""), [Me]);
        return Str("");
      }
      var create := CreatePlaylist(UserId(user.value).value, name, description);
      var playlist := client.Send(create);
      assert old(client.log) + [Me] + [create] == old(client.log) + [Me, create];
      if playlist.Raised? {
        assert e == Exchange(Str(""), [Me, create]);
        return Str("");
      }
      ghost var rest := Created(client.replies, k + 2, playlist.value, trackUris);
      assert e == Exchange(rest.result, [Me, create] + rest.sent);
      url := AddAndLink(playlist.value, trackUris);
      AppendAssoc(old(client.log), [Me, create], rest.sent);
    }

    /** What create_venue_playlist does with the playlist it created: the batches, then the URL. */
    method AddAndLink(p: Value, trackUris: seq<Value>) returns (url: Value)
      modifies client
      ensures var e := Created(client.replies, |old(client.log)|, p, trackUris);
        url == e.result && client.log == old(client.log) + e.sent
    {
      if !Truthy(p) || PyIn("id", p).None? {
        return Str("");
      }
      if trackUris != [] && PyIn("id", p).value {
        if Index(p, "id").None? {
          return Str("");
        }
        var ok := AddInBatches(client, Index(p, "id").value, trackUris);
        if !ok {
          return Str("");
        }
      }
      url := UrlOrEmpty(p);
    }
  }

  /** An attempt sends the search and at most one more request. */
  lemma AttemptSendsAtMostTwo(replies: nat -> Call<Value>, artist: Value, perArtist: int)
    ensures SendsAtMost(TopTracksAttempt(replies, artist, perArtist), 2)
  {
    forall k: nat
      ensures |TopTracksAttempt(replies, artist, perArtist)(k).sent| <= 2
    {
    }
  }

  /** At most max_retries attempts: at most 2 * max_retries requests in all. */
  lemma TrackSearchBound(replies: nat -> Call<Value>, artist: Value, perArtist: int, k: nat, maxRetries: int)
    ensures |TrackSearch(replies, artist, perArtist, k, maxRetries).sent| <= 2 * (if maxRetries < 0 then 0 else maxRetries)
  {
    AttemptSendsAtMostTwo(replies, artist, perArtist);
    RetrySentBound(TopTracksAttempt(replies, artist, perArtist), k, maxRetries, 2);
  }

  /** A search returns at most `perArtist` URIs: what the first attempt that did not raise found. */
  lemma TrackSearchTruncated(replies: nat -> Call<Value>, artist: Value, perArtist: int, k: nat, maxRetries: int)
    requires perArtist >= 0
    ensures |TrackSearch(replies, artist, perArtist, k, maxRetries).result| <= perArtist
  {
    var attempt := TopTracksAttempt(replies, artist, perArtist);
    var ok := (uris: seq<Value>) => |uris| <= perArtist;
    forall j: nat | attempt(j).result.Returned?
      ensures ok(attempt(j).result.value)
    {
      SearchThenTracksTruncated(replies, artist, perArtist, j);
    }
    RetryReturnsOnly(attempt, k, maxRetries, ok);
  }

  /** One attempt returns at most `perArtist` URIs. */
  lemma SearchThenTracksTruncated(replies: nat -> Call<Value>, artist: Value, perArtist: int, k: nat)
    requires perArtist >= 0 && SearchThenTracks(replies, artist, perArtist, k).result.Returned?
    ensures |SearchThenTracks(replies, artist, perArtist, k).result.value| <= perArtist
  {
    if replies(k).Returned? && HitId(replies(k).value).Returned? && HitId(replies(k).value).value.Some? {
      if replies(k + 1).Returned? {
        TopUrisTruncated(replies(k + 1).value, perArtist);
      }
    }
  }

  /** A search sends only searches and top-tracks requests. */
  lemma TrackSearchRequests(replies: nat -> Call<Value>, artist: Value, perArtist: int, k: nat, maxRetries: int)
    ensures forall q :: q in TrackSearch(replies, artist, perArtist, k, maxRetries).sent ==> q.Search? || q.TopTracks?
  {
    var ok := (q: Request) => q.Search? || q.TopTracks?;
    var attempt := TopTracksAttempt(replies, artist, perArtist);
    forall j: nat, q | q in attempt(j).sent
      ensures ok(q)
    {
    }
    RetrySendsOnly(attempt, k, maxRetries, ok);
  }

  /** The batch loop sends only add calls. */
  lemma {:induction false} AddBatchesRequests(replies: nat -> Call<Value>, k: nat, id: Value, batches: seq<seq<Value>>, i: nat)
    ensures forall q :: q in AddBatches(replies, k, id, batches, i).sent ==> q.AddItems?
    decreases |batches| - i
  {
    if i < |batches| && replies(k).Returned? {
      AddBatchesRequests(replies, k + 1, id, batches, i + 1);
    }
  }

  /** The one creation request create_venue_playlist may send carries the given name and description. */
  lemma CreateFlowCreates(replies: nat -> Call<Value>, k: nat, name: string, description: string, uris: seq<Value>)
    ensures forall q :: q in CreateFlow(replies, k, name, description, uris).sent && q.CreatePlaylist? ==>
      q.name == name && q.description == description
  {
    if replies(k).Returned? && UserId(replies(k).value).Returned? && replies(k + 1).Returned? {
      var playlist := replies(k + 1).value;
      if Truthy(playlist) && PyIn("id", playlist).Some? && uris != [] && PyIn("id", playlist).value && Index(playlist, "id").Some? {
        AddBatchesRequests(replies, k + 2, Index(playlist, "id").value, Chunks(uris, BATCH_SIZE), 0);
      }
    }
  }

  /** No artist found: `[]` after the one search, with no retry. */
  lemma NoArtistNoRetry(replies: nat -> Call<Value>, artist: Value, perArtist: int, k: nat, maxRetries: int)
    requires maxRetries >= 1 && replies(k).Returned? && HitId(replies(k).value) == Returned(None)
    ensures TrackSearch(replies, artist, perArtist, k, maxRetries) == Exchange([], [Search(artist)])
  {
  }

  /** Extending the track list adds the new track's URI, if any, at the end. */
  lemma {:induction false} UrisOfSnoc(tracks: seq<Value>, t: Value)
    requires UrisOf(tracks).Returned? && t.Object?
    ensures UrisOf(tracks + [t]) == Returned(UrisOf(tracks).value + (if HasUri(t) then [Index(t, "uri").value] else []))
    decreases |tracks|
  {
    var tail := if HasUri(t) then [Index(t, "uri").value] else [];
    assert TrackUri(t) == Returned(tail);
    if tracks == [] {
      assert tracks + [t] == [t] && [t][1..] == [];
      assert UrisOf([t]) == Returned(tail + []);
      assert tail + [] == tail && UrisOf(tracks).value + tail == tail;
    } else {
      assert (tracks + [t])[1..] == tracks[1..] + [t];
      assert (tracks + [t])[0] == tracks[0];
      UrisOfSnoc(tracks[1..], t);
      var h := TrackUri(tracks[0]).value;
      assert UrisOf(tracks).value == h + UrisOf(tracks[1..]).value;
      assert UrisOf(tracks + [t]).value == h + (UrisOf(tracks[1..]).value + tail);
      assert h + (UrisOf(tracks[1..]).value + tail) == (h + UrisOf(tracks[1..]).value) + tail;
    }
  }

  /** For tracks that are dicts the URIs are those of the tracks that have one, never more than
      the tracks. */
  lemma {:induction false} UrisOfObjects(tracks: seq<Value>)
    requires forall i :: 0 <= i < |tracks| ==> tracks[i].Object?
    ensures UrisOf(tracks).Returned? && |UrisOf(tracks).value| <= |tracks|
    ensures forall u :: u in UrisOf(tracks).value <==> exists i :: 0 <= i < |tracks| && HasUri(tracks[i]) && Index(tracks[i], "uri") == Some(u)
    decreases |tracks|
  {
    if tracks != [] {
      UrisOfObjects(tracks[1..]);
      assert forall i :: 1 <= i < |tracks| ==> tracks[i] == tracks[1..][i - 1];
      var rest := UrisOf(tracks[1..]).value;
      forall u | exists i :: 0 <= i < |tracks| && HasUri(tracks[i]) && Index(tracks[i], "uri") == Some(u)
        ensures u in UrisOf(tracks).value
      {
        var i :| 0 <= i < |tracks| && HasUri(tracks[i]) && Index(tracks[i], "uri") == Some(u);
        if i > 0 {
          assert tracks[1..][i - 1] == tracks[i];
        }
      }
    }
  }

  /** The URI list is no longer than the track count kept by the slice. */
  lemma {:induction false} UrisOfLength(tracks: seq<Value>)
    requires UrisOf(tracks).Returned?
    ensures |UrisOf(tracks).value| <= |tracks|
    decreases |tracks|
  {
    if tracks != [] {
      UrisOfLength(tracks[1..]);
    }
  }

  /** The result keeps at most perArtist tracks of the reply. */
  lemma TopUrisTruncated(top: Value, perArtist: int)
    requires perArtist >= 0 && TopUris(top, perArtist).Returned?
    ensures |TopUris(top, perArtist).value| <= perArtist
  {
    if Truthy(top) && PyIn("tracks", top) == Some(true) {
      var tracks := Index(top, "tracks").value;
      var first := SlicePy(tracks, perArtist).value;
      IterateItems(first);
      var items := Iterate(first).value;
      UrisOfLength(items);
      assert |items| <= perArtist;
    }
  }

  /** When every add call returns, call j carried batch i + j: the batches go out in order. */
  lemma {:induction false} AddBatchesAll(replies: nat -> Call<Value>, k: nat, id: Value, batches: seq<seq<Value>>, i: nat)
    requires i <= |batches| && AddBatches(replies, k, id, batches, i).result
    ensures |AddBatches(replies, k, id, batches, i).sent| == |batches| - i
    ensures forall j :: 0 <= j < |batches| - i ==> AddBatches(replies, k, id, batches, i).sent[j] == AddItems(id, batches[i + j])
    decreases |batches| - i
  {
    if i < |batches| {
      AddBatchesAll(replies, k + 1, id, batches, i + 1);
      var rest := AddBatches(replies, k + 1, id, batches, i + 1);
      assert forall j :: 1 <= j < |batches| - i ==> AddBatches(replies, k, id, batches, i).sent[j] == rest.sent[j - 1];
    }
  }

  /** The batches concatenate to the track list and hold at most 100 tracks each. */
  lemma BatchesCoverTracks(uris: seq<Value>)
    ensures Concat(Chunks(uris, BATCH_SIZE)) == uris
    ensures forall j :: 0 <= j < |Chunks(uris, BATCH_SIZE)| ==> 0 < |Chunks(uris, BATCH_SIZE)[j]| <= BATCH_SIZE
  {
    ChunksConcat(uris, BATCH_SIZE);
  }

  /** Without tracks nothing is added: at most the two requests me and create. */
  lemma NoTracksNoBatches(replies: nat -> Call<Value>, k: nat, name: string, description: string)
    ensures |CreateFlow(replies, k, name, description, []).sent| <= 2
    ensures forall r :: r in CreateFlow(replies, k, name, description, []).sent ==> !r.AddItems?
  {
  }

  /** The requests start with me and the creation under the formatted name and description. */
  lemma CreateRequests(replies: nat -> Call<Value>, k: nat, name: string, description: string, uris: seq<Value>)
    requires replies(k).Returned? && UserId(replies(k).value).Returned?
    ensures var sent := CreateFlow(replies, k, name, description, uris).sent;
      |sent| >= 2 && sent[0] == Me && sent[1] == CreatePlaylist(UserId(replies(k).value).value, name, description)
  {
  }

  /** The URL of a playlist reply that has `external_urls.spotify` is that entry. */
  lemma UrlPrefersSpotifyLink(fields: Fields, urls: Fields, link: Value)
    requires Lookup(fields, "external_urls") == Some(Object(urls)) && Lookup(urls, "spotify") == Some(link)
    ensures PlaylistUrl(Object(fields)) == Returned(link)
  {
  }

  /** Without a Spotify link, `href`. */
  lemma UrlFallsBackToHref(fields: Fields, href: Value)
    requires "external_urls" !in Keys(fields) && Lookup(fields, "href") == Some(href)
    ensures PlaylistUrl(Object(fields)) == Returned(href)
  {
  }

  /** Without both, the open.spotify.com URL of the id. */
  lemma UrlFromId(fields: Fields, id: string)
    requires "external_urls" !in Keys(fields) && "href" !in Keys(fields) && Lookup(fields, "id") == Some(Str(id))
    ensures PlaylistUrl(Object(fields)) == Returned(Str(PLAYLIST_URL_PREFIX + id))
  {
  }

  /** With none of the three the handler returns the empty text. */
  lemma NoUrlGivesEmpty(fields: Fields)
    requires "external_urls" !in Keys(fields) && "href" !in Keys(fields) && "id" !in Keys(fields)
    ensures UrlOrEmpty(Object(fields)) == Str("")
  {
  }

  /** The description ends with the creation stamp exactly when one is included. */
  lemma DescriptionStamp(venueName: string, month: string, stamp: string)
    ensures var d := Description(venueName, month, Some(stamp));
      d == Description(venueName, month, None) + " (Created: " + stamp + ")"
  {
  }
}
