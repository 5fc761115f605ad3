/** data_processing/spotify_service/artist_search.py: finding catalog ids for artist names and
    the top tracks of artist ids, each request retried up to `max_retries` times. */
module ArtistSearch {
  import opened Wrappers
  import opened Strings
  import opened Values
  import opened Spotify
  import Seqs

  /** `results['artists']['items']` of a search reply; `None` when a lookup raises. */
  function SearchItems(results: Value): Option<Value> {
    match Index(results, "artists")
    case None => None
    case Some(artists) => Index(artists, "items")
  }

  /** The top hit's name is text equal to the query when both are lower-cased. */
  predicate NameMatches(hit: Value, name: string) {
    var found := Index(hit, "name");
    found.Some? && found.value.Str? && Lower(found.value.s) == Lower(name)
  }

  /** `_search_single_artist` given the reply to its one search request: the top hit's id when
      its name matches the query case-insensitively, `None` when there is no hit or the best hit
      has another name, and an exception when the reply lacks a field it reads. */
  function SingleArtist(name: string, reply: Call<Value>): Call<Option<Value>>
  {
    match reply
    case Raised => Raised
    case Returned(results) =>
      match SearchItems(results)
      case None => Raised
      case Some(items) =>
        if !Truthy(items) then Returned(None)
        else if !items.List? then Raised
        else
          var hit := items.items[0];
          var found := Index(hit, "name");
          if found.None? || !found.value.Str? then Raised
          else if Lower(found.value.s) != Lower(name) then Returned(None)
          else match Index(hit, "id")
            case None => Raised
            case Some(id) => Returned(Some(id))
  }

  /** No hit at all gives `None`. */
  lemma NoItemsNone(name: string, reply: Call<Value>)
    requires reply.Returned? && SearchItems(reply.value).Some? && !Truthy(SearchItems(reply.value).value)
    ensures SingleArtist(name, reply) == Returned(None)
  {
  }

  /** An id comes only from a top hit whose name matches the query. */
  lemma FoundIsMatchingTopHit(name: string, reply: Call<Value>)
    requires SingleArtist(name, reply).Returned? && SingleArtist(name, reply).value.Some?
    ensures reply.Returned? && SearchItems(reply.value).Some? && SearchItems(reply.value).value.List?
    ensures var items := SearchItems(reply.value).value.items;
      |items| > 0 && NameMatches(items[0], name) && Index(items[0], "id") == Some(SingleArtist(name, reply).value.value)
  {
  }

  /** Conversely, a top hit whose name matches the query and that has an id gives that id. */
  lemma MatchingTopHitFound(name: string, reply: Call<Value>, id: Value)
    requires reply.Returned? && SearchItems(reply.value).Some?
    requires var items := SearchItems(reply.value).value; items.List? && items.items != []
    requires var hit := SearchItems(reply.value).value.items[0];
      NameMatches(hit, name) && Index(hit, "id") == Some(id)
    ensures SingleArtist(name, reply) == Returned(Some(id))
  {
  }

  /** A top hit whose name differs from the query, ignoring case, is rejected. */
  lemma MismatchRejected(name: string, reply: Call<Value>)
    requires reply.Returned? && SearchItems(reply.value).Some?
    requires var items := SearchItems(reply.value).value; items.List? && items.items != []
    requires var hit := SearchItems(reply.value).value.items[0];
      Index(hit, "name").Some? && Index(hit, "name").value.Str? && !NameMatches(hit, name)
    ensures SingleArtist(name, reply) == Returned(None)
  {
  }

  /** The match ignores case: queries equal when lower-cased get the same answer. */
  lemma SingleArtistIgnoresCase(a: string, b: string, reply: Call<Value>)
    requires Lower(a) == Lower(b)
    ensures SingleArtist(a, reply) == SingleArtist(b, reply)
  {
  }

  /** One attempt of search_artists: one search request, no retry inside. */
  function SearchAttemptFor(replies: nat -> Call<Value>): string -> (nat -> Exchange<Call<Option<Value>>>) {
    name => (k: nat) => Exchange(SingleArtist(name, replies(k)), [Search(Str(name))])
  }

  /** `_search_single_artist`: one request, answered as SingleArtist says. */
  method SearchSingleArtist(client: Client, name: string) returns (r: Call<Option<Value>>)
    modifies client
    ensures client.log == old(client.log) + [Search(Str(name))]
    ensures Exchange(r, [Search(Str(name))]) == SearchAttemptFor(client.replies)(name)(|old(client.log)|)
  {
    var reply := client.Send(Search(Str(name)));
    r := SingleArtist(name, reply);
  }


  /** The inner loop of search_artists for one name: attempts until one does not raise; `None`
      when every attempt raised. */
  method SearchWithRetries(client: Client, name: string, maxRetries: int) returns (answer: Option<Option<Value>>)
    modifies client
    ensures var r := Retry(SearchAttemptFor(client.replies)(name), |old(client.log)|, maxRetries);
      answer == r.result && client.log == old(client.log) + r.sent
  {
    ghost var attempts := SearchAttemptFor(client.replies)(name);
    ghost var start := |client.log|;
    ghost var sentHere: seq<Request> := [];
    assert Resumes(attempts, start, maxRetries, sentHere, maxRetries) by {
      ResumesAtStart(attempts, start, maxRetries);
    }
    var attempt := 0;
    while attempt < maxRetries
      invariant 0 <= attempt
      invariant client.log == old(client.log) + sentHere
      invariant Resumes(attempts, start, maxRetries, sentHere, maxRetries - attempt)
    {
      ghost var pos := |client.log|;
      var r := SearchSingleArtist(client, name);
      assert attempts(pos) == Exchange(r, [Search(Str(name))]);
      Seqs.AppendAssoc(old(client.log), sentHere, [Search(Str(name))]);
      if r.Returned? {
        assert Retry(attempts, start, maxRetries) == Exchange(Some(r.value), sentHere + [Search(Str(name))]) by {
          ResumeReturned(attempts, start, maxRetries, sentHere, maxRetries - attempt);
        }
        return Some(r.value);
      }
      assert Resumes(attempts, start, maxRetries, sentHere + [Search(Str(name))], maxRetries - attempt - 1) by {
        ResumeAfterRaise(attempts, start, maxRetries, sentHere, maxRetries - attempt);
      }
      sentHere := sentHere + [Search(Str(name))];
      attempt := attempt + 1;
    }
    assert Retry(attempts, start, maxRetries) == Exchange(None, sentHere) by {
      ResumeExhausted(attempts, start, maxRetries, sentHere, maxRetries - attempt);
    }
    return None;
  }

  /** One name's turn of search_artists: its retry loop and the entry it leaves. */
  method SearchStep(client: Client, name: string, maxRetries: int, results: map<string, Option<Value>>,
                    ghost c: Collected<Option<Value>>, ghost before: seq<Request>)
    returns (results': map<string, Option<Value>>, ghost c': Collected<Option<Value>>)
    requires results == c.results && client.log == before + c.sent
    modifies client
    ensures c' == CollectStep(SearchAttemptFor(client.replies), c, name, |before|, maxRetries, None)
    ensures results' == c'.results && client.log == before + c'.sent
  {
    ghost var attemptFor := SearchAttemptFor(client.replies);
    var answer := SearchWithRetries(client, name, maxRetries);
    results' := results;
    if answer.Some? {
      results' := results'[name := answer.value];
    } else if maxRetries >= 1 {
      // the last failed attempt stores `None`
      results' := results'[name := None];
    }
    CollectStepOf(attemptFor, c, name, |before|, maxRetries, None, answer, results');
    c' := CollectStep(attemptFor, c, name, |before|, maxRetries, None);
    Seqs.AppendAssoc(before, c.sent, Retry(attemptFor(name), |before| + |c.sent|, maxRetries).sent);
  }

  /** search_artists: every name searched with up to max_retries attempts; a name whose attempts
      all raise maps to `None`. */
  method SearchArtists(client: Client, names: seq<string>, maxRetries: int) returns (results: map<string, Option<Value>>)
    modifies client
    ensures var c := RetryAll(SearchAttemptFor(client.replies), names, |old(client.log)|, maxRetries, None);
      results == c.results && client.log == old(client.log) + c.sent
  {
    ghost var attemptFor := SearchAttemptFor(client.replies);
    ghost var k0 := |client.log|;
    ghost var c := RetryAll(attemptFor, [], k0, maxRetries, None);
    results := map[];
    for i := 0 to |names|
      invariant c == RetryAll(attemptFor, names[..i], k0, maxRetries, None)
      invariant results == c.results && client.log == old(client.log) + c.sent
    {
      results, c := SearchStep(client, names[i], maxRetries, results, c, old(client.log));
      assert names[..i + 1] == names[..i] + [names[i]];
      RetryAllSnoc(attemptFor, names[..i], names[i], k0, maxRetries, None);
    }
    assert names[..|names|] == names;
  }

  /** `[track['id'] for track in tracks]`: raises as soon as one track has no id. */
  function TrackIds(tracks: seq<Value>): Call<seq<Value>>
  {
    if tracks == [] then Returned([])
    else match Index(tracks[0], "id")
      case None => Raised
      case Some(id) =>
        match TrackIds(tracks[1..])
        case Raised => Raised
        case Returned(rest) => Returned([id] + rest)
  }

  /** The ids come out one per track in track order, and only when every track has one. */
  lemma {:induction false} TrackIdsSound(tracks: seq<Value>)
    ensures TrackIds(tracks).Returned? <==> forall i :: 0 <= i < |tracks| ==> Index(tracks[i], "id").Some?
    ensures TrackIds(tracks).Returned? ==> |TrackIds(tracks).value| == |tracks|
    ensures TrackIds(tracks).Returned? ==> forall i :: 0 <= i < |tracks| ==> Index(tracks[i], "id") == Some(TrackIds(tracks).value[i])
  {
    if tracks != [] {
      TrackIdsSound(tracks[1..]);
      assert forall i :: 1 <= i < |tracks| ==> tracks[i] == tracks[1..][i - 1];
    }
  }

  /** The track ids in a top-tracks reply, read from its `tracks` entry. */
  function TracksOf(reply: Call<Value>): Call<seq<Value>> {
    match reply
    case Raised => Raised
    case Returned(v) =>
      match Index(v, "tracks")
      case None => Raised
      case Some(tracks) =>
        match Iterate(tracks)
        case None => Raised
        case Some(items) => TrackIds(items)
  }

  /** A reply listing tracks that all carry an id gives those ids, in the listed order. */
  lemma TracksInReplyOrder(reply: Call<Value>, tracks: seq<Value>)
    requires reply.Returned? && Index(reply.value, "tracks") == Some(List(tracks))
    requires forall i :: 0 <= i < |tracks| ==> Index(tracks[i], "id").Some?
    ensures TracksOf(reply).Returned? && |TracksOf(reply).value| == |tracks|
    ensures forall i :: 0 <= i < |tracks| ==> Index(tracks[i], "id") == Some(TracksOf(reply).value[i])
  {
    TrackIdsSound(tracks);
  }

  /** One attempt of get_top_tracks: one top-tracks request for the id and market. */
  function TracksAttemptFor(replies: nat -> Call<Value>, market: string): string -> (nat -> Exchange<Call<seq<Value>>>) {
    id => (k: nat) => Exchange(TracksOf(replies(k)), [TopTracks(Str(id), market)])
  }

  /** `self.spotify.artist_top_tracks(artist_id, market)` and the id list built from it. */
  method FetchTopTracks(client: Client, id: string, market: string) returns (r: Call<seq<Value>>)
    modifies client
    ensures client.log == old(client.log) + [TopTracks(Str(id), market)]
    ensures Exchange(r, [TopTracks(Str(id), market)]) == TracksAttemptFor(client.replies, market)(id)(|old(client.log)|)
  {
    var reply := client.Send(TopTracks(Str(id), market));
    r := TracksOf(reply);
  }

  /** The inner loop of get_top_tracks for one id. */
  method TracksWithRetries(client: Client, id: string, market: string, maxRetries: int) returns (answer: Option<seq<Value>>)
    modifies client
    ensures var r := Retry(TracksAttemptFor(client.replies, market)(id), |old(client.log)|, maxRetries);
      answer == r.result && client.log == old(client.log) + r.sent
  {
    ghost var attempts := TracksAttemptFor(client.replies, market)(id);
    ghost var start := |client.log|;
    ghost var sentHere: seq<Request> := [];
    assert Resumes(attempts, start, maxRetries, sentHere, maxRetries) by {
      ResumesAtStart(attempts, start, maxRetries);
    }
    var attempt := 0;
    while attempt < maxRetries
      invariant 0 <= attempt
      invariant client.log == old(client.log) + sentHere
      invariant Resumes(attempts, start, maxRetries, sentHere, maxRetries - attempt)
    {
      ghost var pos := |client.log|;
      var r := FetchTopTracks(client, id, market);
      assert attempts(pos) == Exchange(r, [TopTracks(Str(id), market)]);
      Seqs.AppendAssoc(old(client.log), sentHere, [TopTracks(Str(id), market)]);
      if r.Returned? {
        assert Retry(attempts, start, maxRetries) == Exchange(Some(r.value), sentHere + [TopTracks(Str(id), market)]) by {
          ResumeReturned(attempts, start, maxRetries, sentHere, maxRetries - attempt);
        }
        return Some(r.value);
      }
      assert Resumes(attempts, start, maxRetries, sentHere + [TopTracks(Str(id), market)], maxRetries - attempt - 1) by {
        ResumeAfterRaise(attempts, start, maxRetries, sentHere, maxRetries - attempt);
      }
      sentHere := sentHere + [TopTracks(Str(id), market)];
      attempt := attempt + 1;
    }
    assert Retry(attempts, start, maxRetries) == Exchange(None, sentHere) by {
      ResumeExhausted(attempts, start, maxRetries, sentHere, maxRetries - attempt);
    }
    return None;
  }

  /** One id's turn of get_top_tracks: its retry loop and the entry it leaves. */
  method TopTracksStep(client: Client, id: string, market: string, maxRetries: int, results: map<string, seq<Value>>,
                       ghost c: Collected<seq<Value>>, ghost before: seq<Request>)
    returns (results': map<string, seq<Value>>, ghost c': Collected<seq<Value>>)
    requires results == c.results && client.log == before + c.sent
    modifies client
    ensures c' == CollectStep(TracksAttemptFor(client.replies, market), c, id, |before|, maxRetries, [])
    ensures results' == c'.results && client.log == before + c'.sent
  {
    ghost var attemptFor := TracksAttemptFor(client.replies, market);
    var answer := TracksWithRetries(client, id, market, maxRetries);
    results' := results;
    if answer.Some? {
      results' := results'[id := answer.value];
    } else if maxRetries >= 1 {
      // the last failed attempt stores `[]`
      results' := results'[id := []];
    }
    CollectStepOf(attemptFor, c, id, |before|, maxRetries, [], answer, results');
    c' := CollectStep(attemptFor, c, id, |before|, maxRetries, []);
    Seqs.AppendAssoc(before, c.sent, Retry(attemptFor(id), |before| + |c.sent|, maxRetries).sent);
  }

  /** get_top_tracks: every id's track ids, with up to max_retries attempts; an id whose attempts
      all raise maps to the empty list. */
  method GetTopTracks(client: Client, ids: seq<string>, market: string, maxRetries: int) returns (results: map<string, seq<Value>>)
    modifies client
    ensures var c := RetryAll(TracksAttemptFor(client.replies, market), ids, |old(client.log)|, maxRetries, []);
      results == c.results && client.log == old(client.log) + c.sent
  {
    ghost var attemptFor := TracksAttemptFor(client.replies, market);
    ghost var k0 := |client.log|;
    ghost var c := RetryAll(attemptFor, [], k0, maxRetries, []);
    results := map[];
    for i := 0 to |ids|
      invariant c == RetryAll(attemptFor, ids[..i], k0, maxRetries, [])
      invariant results == c.results && client.log == old(client.log) + c.sent
    {
      results, c := TopTracksStep(client, ids[i], market, maxRetries, results, c, old(client.log));
      assert ids[..i + 1] == ids[..i] + [ids[i]];
      RetryAllSnoc(attemptFor, ids[..i], ids[i], k0, maxRetries, []);
    }
    assert ids[..|ids|] == ids;
  }

  /** At most max_retries search requests per name: one request per attempt. */
  lemma SearchRequestBound(replies: nat -> Call<Value>, names: seq<string>, k0: nat, maxRetries: int)
    ensures |RetryAll(SearchAttemptFor(replies), names, k0, maxRetries, None).sent|
      <= |names| * (1 * (if maxRetries < 0 then 0 else maxRetries))
  {
    forall name | true
      ensures SendsAtMost(SearchAttemptFor(replies)(name), 1)
    {
    }
    RetryAllSentBound(SearchAttemptFor(replies), names, k0, maxRetries, None, 1);
  }

  /** Every name listed gets an entry, unless no attempt is allowed. */
  lemma SearchKeys(replies: nat -> Call<Value>, names: seq<string>, k0: nat, maxRetries: int)
    requires maxRetries >= 1
    ensures forall name :: name in RetryAll(SearchAttemptFor(replies), names, k0, maxRetries, None).results <==> name in names
  {
    RetryAllKeys(SearchAttemptFor(replies), names, k0, maxRetries, None);
  }

  /** A stored id is a case-insensitive match of the name it is stored under. */
  lemma SearchFoundMatches(replies: nat -> Call<Value>, names: seq<string>, k0: nat, maxRetries: int, name: string)
    requires name in RetryAll(SearchAttemptFor(replies), names, k0, maxRetries, None).results
    requires RetryAll(SearchAttemptFor(replies), names, k0, maxRetries, None).results[name].Some?
    ensures exists k: nat :: SingleArtist(name, replies(k)) == Returned(RetryAll(SearchAttemptFor(replies), names, k0, maxRetries, None).results[name])
  {
    RetryAllValues(SearchAttemptFor(replies), names, k0, maxRetries, None, name);
    var v := RetryAll(SearchAttemptFor(replies), names, k0, maxRetries, None).results[name];
    var k: nat :| SearchAttemptFor(replies)(name)(k).result == Returned(v);
    assert SingleArtist(name, replies(k)) == Returned(v);
  }

  /** Every id listed gets an entry, unless no attempt is allowed; a non-empty entry is the id list
      of a reply to a top-tracks request. */
  lemma TopTracksEntries(replies: nat -> Call<Value>, market: string, ids: seq<string>, k0: nat, maxRetries: int, id: string)
    requires maxRetries >= 1
    ensures id in RetryAll(TracksAttemptFor(replies, market), ids, k0, maxRetries, []).results <==> id in ids
    ensures id in ids ==> var v := RetryAll(TracksAttemptFor(replies, market), ids, k0, maxRetries, []).results[id];
      v == [] || exists k: nat :: TracksOf(replies(k)) == Returned(v)
  {
    RetryAllKeys(TracksAttemptFor(replies, market), ids, k0, maxRetries, []);
    if id in ids {
      RetryAllValues(TracksAttemptFor(replies, market), ids, k0, maxRetries, [], id);
      var v := RetryAll(TracksAttemptFor(replies, market), ids, k0, maxRetries, []).results[id];
      if v != [] {
        var k: nat :| TracksAttemptFor(replies, market)(id)(k).result == Returned(v);
        assert TracksOf(replies(k)) == Returned(v);
      }
    }
  }
}
