/** scripts/venue_data/playlist_cleanup.py: removal of test playlists. The cleaner unfollows the
    playlists named "[TEST] ..." whose description records a creation time older than the cutoff,
    or one playlist given by id. Times are whole seconds; `datetime.fromisoformat` is the
    parameter `parseIso`. */
module PlaylistCleanup {
  import opened Wrappers
  import opened Strings
  import opened Values
  import opened Spotify
  import PlaylistGenerator
  import Seqs

  const TEST_PREFIX := "[TEST]"
  const MARKER := "Created:"

  /** `description.split('Created:')[1]`: the text between the first marker and the next one, or
      the end; `None` when the text holds no marker. */
  function MarkerText(description: string): (r: Option<string>)
    ensures r.Some? <==> Contains(description, MARKER)
  {
    match IndexOf(description, MARKER)
    case None => None
    case Some(i) =>
      var rest := description[i + |MARKER|..];
      match IndexOf(rest, MARKER)
      case None => Some(rest)
      case Some(j) => Some(rest[..j])
  }

  /** The time text as _get_playlist_creation_time hands it to the parser: the marker text, stripped. */
  function StampTextAsWritten(description: string): Option<string> {
    match MarkerText(description)
    case None => None
    case Some(t) => Some(Strip(t))
  }

  /** The time text with the closing parenthesis of " (Created: <stamp>)" removed as well. */
  function StampText(description: string): Option<string> {
    match MarkerText(description)
    case None => None
    case Some(t) =>
      var s := Strip(t);
      Some(if s != [] && s[|s| - 1] == ')' then Strip(s[..|s| - 1]) else s)
  }

  /** The playlist's description when it is a text holding the marker; `None` when the
      description is missing text or marker (a `get` on a non-dict is swallowed too). */
  function MarkedDescription(playlist: Value): Option<string> {
    match Get(playlist, "description", Str(""))
    case None => None
    case Some(description) =>
      if PyIn(MARKER, description) != Some(true) || !description.Str? then None
      else Some(description.s)
  }

  /** _get_playlist_creation_time: the parse of the stripped text after the marker, or `None`
      when the description has no marker, is not text, or does not parse (every exception is
      swallowed). */
  function CreationTime(playlist: Value, parseIso: string -> Option<int>): Option<int> {
    match MarkedDescription(playlist)
    case None => None
    case Some(d) =>
      match StampTextAsWritten(d)
      case None => None
      case Some(t) => parseIso(t)
  }

  /** The creation time as intended: the parse of the stamp without its closing parenthesis. */
  function CorrectedCreationTime(playlist: Value, parseIso: string -> Option<int>): Option<int> {
    match MarkedDescription(playlist)
    case None => None
    case Some(d) =>
      match StampText(d)
      case None => None
      case Some(t) => parseIso(t)
  }

  /** The playlist is a test playlist old enough to go: its name starts with "[TEST]" and its
      creation time is before the cutoff. `None` is the exception a playlist without a text name
      raises. */
  function Expired(playlist: Value, cutoff: int, parseIso: string -> Option<int>): Option<bool> {
    match Index(playlist, "name")
    case None => None
    case Some(name) =>
      if !name.Str? then None
      else if !StartsWith(name.s, TEST_PREFIX) then Some(false)
      else
        var created := CreationTime(playlist, parseIso);
        Some(created.Some? && created.value < cutoff)
  }

  /** The test the loop applies to each playlist, for a given cutoff and parser. */
  function ExpiryTest(cutoff: int, parseIso: string -> Option<int>): Value -> Option<bool> {
    (p: Value) => Expired(p, cutoff, parseIso)
  }

  /** One playlist of the loop in cleanup_test_playlists, after the requests `acc.sent`: an expired
      playlist is unfollowed and, when that returns, its id recorded; an unfollow that raises is
      logged and skipped; a missing name or id raises out of the loop. */
  function CleanStep(replies: nat -> Call<Value>, k: nat, expired: Value -> Option<bool>,
                     acc: Exchange<Call<seq<Value>>>, playlist: Value): Exchange<Call<seq<Value>>> {
    if acc.result.Raised? then acc
    else match expired(playlist)
      case None => Exchange(Raised, acc.sent)
      case Some(false) => acc
      case Some(true) =>
        match Index(playlist, "id")
        case None => Exchange(Raised, acc.sent)
        case Some(id) =>
          var sent := acc.sent + [Unfollow(id)];
          if replies(k + |acc.sent|).Returned? then Exchange(Returned(acc.result.value + [id]), sent)
          else Exchange(acc.result, sent)
  }

  /** The loop over the playlists, from request k on. */
  function CleanAll(replies: nat -> Call<Value>, k: nat, expired: Value -> Option<bool>,
                    playlists: seq<Value>): Exchange<Call<seq<Value>>>
  {
    if playlists == [] then Exchange(Returned([]), [])
    else CleanStep(replies, k, expired, CleanAll(replies, k, expired, playlists[..|playlists| - 1]),
      playlists[|playlists| - 1])
  }

  /** `playlists['items']` of the first page, as a list to loop over; `None` when the request or
      a lookup raises or the items cannot be looped over. */
  function PagePlaylists(page: Call<Value>): Option<seq<Value>> {
    match page
    case Raised => None
    case Returned(p) =>
      match Index(p, "items")
      case None => None
      case Some(items) => Iterate(items)
  }

  /** cleanup_test_playlists from request k on, for the expiry test `expired`: the first page of
      the user's playlists, then the loop; `Raised` is an exception out of the call. */
  function CleanupWith(replies: nat -> Call<Value>, k: nat, expired: Value -> Option<bool>): Exchange<Call<seq<Value>>> {
    match PagePlaylists(replies(k))
    case None => Exchange(Raised, [UserPlaylists])
    case Some(playlists) =>
      var run := CleanAll(replies, k + 1, expired, playlists);
      Exchange(run.result, [UserPlaylists] + run.sent)
  }

  /** cleanup_test_playlists from request k on, with the cutoff `older_than_hours` before `now`. */
  function Cleanup(replies: nat -> Call<Value>, k: nat, olderThanHours: int, now: int,
                   parseIso: string -> Option<int>): Exchange<Call<seq<Value>>> {
    CleanupWith(replies, k, ExpiryTest(now - olderThanHours * 3600, parseIso))
  }

  class PlaylistCleaner {
    const client: Client

    /** The cleaner on a given client; the default client's OAuth setup is not part of this model. */
    constructor (client: Client)
      ensures this.client == client
    {
      this.client := client;
    }

    /** cleanup_specific_playlist: true exactly when the unfollow request returned. */
    method CleanupSpecificPlaylist(playlistId: Value) returns (ok: bool)
      modifies client
      ensures client.log == old(client.log) + [Unfollow(playlistId)]
      ensures ok <==> client.replies(|old(client.log)|).Returned?
    {
      var reply := client.Send(Unfollow(playlistId));
      ok := reply.Returned?;
    }

    /** cleanup_test_playlists; `now` is the time of the call. */
    method CleanupTestPlaylists(olderThanHours: int, now: int, parseIso: string -> Option<int>)
      returns (cleaned: Call<seq<Value>>)
      modifies client
      ensures var e := Cleanup(client.replies, |old(client.log)|, olderThanHours, now, parseIso);
        cleaned == e.result && client.log == old(client.log) + e.sent
    {
      cleaned := SweepPage(ExpiryTest(now - olderThanHours * 3600, parseIso));
    }

    /** The first page and the loop over it. */
    method SweepPage(expired: Value -> Option<bool>) returns (cleaned: Call<seq<Value>>)
      modifies client
      ensures var e := CleanupWith(client.replies, |old(client.log)|, expired);
        cleaned == e.result && client.log == old(client.log) + e.sent
    {
      var page := client.Send(UserPlaylists);
      var playlists := PagePlaylists(page);
      if playlists.None? {
        return Raised;
      }
      cleaned := Sweep(playlists.value, expired);
      Seqs.AppendAssoc(old(client.log), [UserPlaylists], CleanAll(client.replies, |old(client.log)| + 1, expired, playlists.value).sent);
    }

    /** The loop over the playlists of the page. */
    method Sweep(playlists: seq<Value>, expired: Value -> Option<bool>) returns (cleaned: Call<seq<Value>>)
      modifies client
      ensures var e := CleanAll(client.replies, |old(client.log)|, expired, playlists);
        cleaned == e.result && client.log == old(client.log) + e.sent
    {
      ghost var k := |client.log|;
      ghost var sentHere: seq<Request> := [];
      var ids: seq<Value> := [];
      for i := 0 to |playlists|
        invariant client.log == old(client.log) + sentHere
        invariant CleanAll(client.replies, k, expired, playlists[..i]) == Exchange(Returned(ids), sentHere)
      {
        CleanAllPrefix(client.replies, k, expired, playlists, i);
        var p := playlists[i];
        var test := expired(p);
        if test.None? || (test.value && Index(p, "id").None?) {
          CleanAllStaysRaised(client.replies, k, expired, playlists, i + 1);
          assert playlists[..|playlists|] == playlists;
          return Raised;
        }
        if test.value {
          var id := Index(p, "id").value;
          var reply := client.Send(Unfollow(id));
          Seqs.AppendAssoc(old(client.log), sentHere, [Unfollow(id)]);
          sentHere := sentHere + [Unfollow(id)];
          if reply.Returned? {
            ids := ids + [id];
          }
        }
      }
      assert playlists[..|playlists|] == playlists;
      return Returned(ids);
    }
  }

  /** The loop over the first i + 1 playlists is one step after the loop over the first i. */
  lemma CleanAllPrefix(replies: nat -> Call<Value>, k: nat, expired: Value -> Option<bool>,
                       playlists: seq<Value>, i: nat)
    requires i < |playlists|
    ensures CleanAll(replies, k, expired, playlists[..i + 1])
      == CleanStep(replies, k, expired, CleanAll(replies, k, expired, playlists[..i]), playlists[i])
  {
    assert playlists[..i + 1][..i] == playlists[..i];
  }

  /** Once the loop has raised, the later playlists change nothing. */
  lemma {:induction false} CleanAllStaysRaised(replies: nat -> Call<Value>, k: nat, expired: Value -> Option<bool>,
                                              playlists: seq<Value>, i: nat)
    requires i <= |playlists| && CleanAll(replies, k, expired, playlists[..i]).result.Raised?
    ensures CleanAll(replies, k, expired, playlists) == CleanAll(replies, k, expired, playlists[..i])
    decreases |playlists| - i
  {
    if i < |playlists| {
      assert playlists[..i + 1][..i] == playlists[..i];
      CleanAllStaysRaised(replies, k, expired, playlists, i + 1);
    } else {
      assert playlists[..i] == playlists;
    }
  }

  /** The request is the unfollow of a playlist of the page that passes the test. */
  ghost predicate UnfollowsExpired(expired: Value -> Option<bool>, playlists: seq<Value>, r: Request) {
    exists p :: p in playlists && expired(p) == Some(true) && Index(p, "id").Some? && r == Unfollow(Index(p, "id").value)
  }

  /** Every request of the loop is the unfollow of an expired playlist of the page. */
  lemma {:induction false} CleanAllRequests(replies: nat -> Call<Value>, k: nat, expired: Value -> Option<bool>,
                                           playlists: seq<Value>)
    ensures forall r :: r in CleanAll(replies, k, expired, playlists).sent ==> UnfollowsExpired(expired, playlists, r)
  {
    if playlists != [] {
      var init := playlists[..|playlists| - 1];
      var last := playlists[|playlists| - 1];
      CleanAllRequests(replies, k, expired, init);
      var acc := CleanAll(replies, k, expired, init);
      var e := CleanAll(replies, k, expired, playlists);
      forall r | r in e.sent
        ensures UnfollowsExpired(expired, playlists, r)
      {
        if r in acc.sent {
          assert UnfollowsExpired(expired, init, r);
          var q :| q in init && expired(q) == Some(true) && Index(q, "id").Some? && r == Unfollow(Index(q, "id").value);
          assert q in playlists;
        } else {
          assert e.sent == acc.sent + [Unfollow(Index(last, "id").value)];
          assert last in playlists;
        }
      }
    }
  }

  /** Every recorded id had its unfollow request sent, and that request returned. */
  lemma {:induction false} CleanAllRecorded(replies: nat -> Call<Value>, k: nat, expired: Value -> Option<bool>,
                                           playlists: seq<Value>)
    ensures var e := CleanAll(replies, k, expired, playlists);
      e.result.Returned? ==> forall id :: id in e.result.value ==>
        exists j :: 0 <= j < |e.sent| && e.sent[j] == Unfollow(id) && replies(k + j).Returned?
  {
    if playlists != [] {
      var init := playlists[..|playlists| - 1];
      CleanAllRecorded(replies, k, expired, init);
      var acc := CleanAll(replies, k, expired, init);
      var e := CleanAll(replies, k, expired, playlists);
      if e.result.Returned? && |e.sent| > |acc.sent| {
        assert e.sent == acc.sent + [e.sent[|acc.sent|]];
        assert forall j :: 0 <= j < |acc.sent| ==> e.sent[j] == acc.sent[j];
      }
    }
  }

  /** A playlist every copy of whose id fails the test is never unfollowed. */
  lemma KeptPlaylists(replies: nat -> Call<Value>, k: nat, expired: Value -> Option<bool>, playlists: seq<Value>, p: Value)
    requires Index(p, "id").Some?
    requires forall q :: q in playlists && Index(q, "id") == Index(p, "id") ==> expired(q) != Some(true)
    ensures Unfollow(Index(p, "id").value) !in CleanAll(replies, k, expired, playlists).sent
  {
    CleanAllRequests(replies, k, expired, playlists);
    var e := CleanAll(replies, k, expired, playlists);
    forall r | r in e.sent
      ensures r != Unfollow(Index(p, "id").value)
    {
      assert UnfollowsExpired(expired, playlists, r);
      var q :| q in playlists && expired(q) == Some(true) && Index(q, "id").Some? && r == Unfollow(Index(q, "id").value);
      assert Index(q, "id") != Index(p, "id");
    }
  }

  /** A playlist that is not named "[TEST]..." is never expired, whatever its description says. */
  lemma OnlyTestPlaylistsExpire(playlist: Value, cutoff: int, parseIso: string -> Option<int>)
    requires Expired(playlist, cutoff, parseIso) == Some(true)
    ensures Index(playlist, "name").Some? && Index(playlist, "name").value.Str?
    ensures StartsWith(Index(playlist, "name").value.s, TEST_PREFIX)
    ensures CreationTime(playlist, parseIso).Some? && CreationTime(playlist, parseIso).value < cutoff
  {
  }

  /** The cutoff is older_than_hours before now: more hours clean up fewer playlists. */
  lemma LongerAgeExpiresLess(playlist: Value, now: int, h1: int, h2: int, parseIso: string -> Option<int>)
    requires h1 <= h2 && Expired(playlist, now - h2 * 3600, parseIso) == Some(true)
    ensures Expired(playlist, now - h1 * 3600, parseIso) == Some(true)
  {
  }

  /** In a text whose first part has no ':', the marker is first found where the second part
      starts with it. */
  lemma {:induction false} FirstMarkerAt(p: string, tail: string)
    requires ':' !in p && StartsWith(tail, MARKER)
    ensures IndexOf(p + tail, MARKER) == Some(|p|)
    decreases |p|
  {
    var s := p + tail;
    if p == [] {
      assert s == tail;
    } else {
      if |p| > 7 {
        assert s[7] == p[7];
      } else {
        assert s[7] == tail[7 - |p|] == tail[..8][7 - |p|];
      }
      assert s[..8][7] == s[7] && s[7] != ':';
      assert !StartsWith(s, MARKER);
      assert s[1..] == p[1..] + tail;
      FirstMarkerAt(p[1..], tail);
    }
  }

  /** A text without 'C' holds no marker. */
  lemma {:induction false} NoMarkerWithoutC(t: string)
    requires 'C' !in t
    ensures IndexOf(t, MARKER).None?
    decreases |t|
  {
    if t != [] {
      if |t| >= 8 {
        assert t[..8][0] == t[0];
      }
      assert !StartsWith(t, MARKER);
      NoMarkerWithoutC(t[1..]);
    }
  }

  /** The prefix of the description before the creation stamp. */
  function StampPrefix(venueName: string, month: string): string {
    "Top tracks from artists playing at " + venueName + " in " + month + " ("
  }

  /** A stamped description is the colon-free prefix, the marker, the stamp and `)`. */
  lemma DescriptionWithStamp(venueName: string, month: string, stamp: string)
    ensures PlaylistGenerator.Description(venueName, month, Some(stamp)) == StampPrefix(venueName, month) + "Created: " + stamp + ")"
  {
  }

  /** The marker text of a generated description is the stamp with the closing parenthesis. */
  lemma MarkerTextOfDescription(venueName: string, month: string, stamp: string)
    requires ':' !in venueName && ':' !in month && 'C' !in stamp
    ensures MarkerText(StampPrefix(venueName, month) + "Created: " + stamp + ")") == Some(" " + stamp + ")")
  {
    var p, t := StampPrefix(venueName, month), " " + stamp + ")";
    assert ':' !in p by {
      assert p == "Top tracks from artists playing at " + venueName + " in " + month + " (";
    }
    assert 'C' !in t;
    assert p + "Created: " + stamp + ")" == p + MARKER + t;
    MarkerTextAfter(p, t);
  }

  /** After a colon-free prefix, the marker text is everything behind the marker when no
      further marker follows. */
  lemma MarkerTextAfter(p: string, t: string)
    requires ':' !in p && 'C' !in t
    ensures MarkerText(p + MARKER + t) == Some(t)
  {
    var d := p + MARKER + t;
    assert d == p + (MARKER + t);
    FirstMarkerAt(p, MARKER + t);
    assert d[|p| + |MARKER|..] == t;
    NoMarkerWithoutC(t);
  }

  /** A stamp with no surrounding space is what stripping leaves of " <stamp>)" but the parenthesis. */
  lemma StripOfStamp(stamp: string)
    requires Stripped(stamp)
    ensures Strip(" " + stamp + ")") == stamp + ")"
    ensures Strip(stamp) == stamp
  {
    var u := stamp + ")";
    assert " " + stamp + ")" == [' '] + u;
    TrimLeftSpace(' ', u);
    assert u[0] == (if stamp == [] then ')' else stamp[0]);
    TrimLeftKeeps(u);
    assert u[|u| - 1] == ')';
    TrimRightKeeps(u);
    StrippedIsFixed(stamp);
  }

  /** A leading space is trimmed away. */
  lemma TrimLeftSpace(c: char, u: string)
    requires IsSpace(c)
    ensures TrimLeft([c] + u) == TrimLeft(u)
  {
    assert ([c] + u)[1..] == u;
  }

  /** A text starting with a non-space keeps its left end. */
  lemma TrimLeftKeeps(u: string)
    requires u != [] && !IsSpace(u[0])
    ensures TrimLeft(u) == u
  {
  }

  /** A text ending with a non-space keeps its right end. */
  lemma TrimRightKeeps(u: string)
    requires u != [] && !IsSpace(u[|u| - 1])
    ensures TrimRight(u) == u
  {
  }

  /** As written, the text handed to the parser for a description made by the data-processing
      generator keeps the closing parenthesis: "2024-01-01 10:00:00)", which `fromisoformat`
      rejects. */
  lemma StampAsWrittenKeepsParenthesis(venueName: string, month: string, stamp: string)
    requires ':' !in venueName && ':' !in month && 'C' !in stamp && Stripped(stamp)
    ensures StampTextAsWritten(PlaylistGenerator.Description(venueName, month, Some(stamp))) == Some(stamp + ")")
  {
    DescriptionWithStamp(venueName, month, stamp);
    MarkerTextOfDescription(venueName, month, stamp);
    StripOfStamp(stamp);
  }

  /** With the parenthesis removed, the parser gets back the stamp the generator wrote. */
  lemma StampRoundTrip(venueName: string, month: string, stamp: string)
    requires ':' !in venueName && ':' !in month && 'C' !in stamp && Stripped(stamp)
    ensures StampText(PlaylistGenerator.Description(venueName, month, Some(stamp))) == Some(stamp)
  {
    var d := PlaylistGenerator.Description(venueName, month, Some(stamp));
    StampAsWrittenKeepsParenthesis(venueName, month, stamp);
    StampTextOfStripped(d, stamp + ")");
    StripOfStamp(stamp);
    assert (stamp + ")")[..|stamp + ")"| - 1] == stamp;
  }

  /** The corrected text is the as-written one with a final parenthesis taken off and stripped again. */
  lemma StampTextOfStripped(d: string, s: string)
    requires StampTextAsWritten(d) == Some(s)
    ensures StampText(d) == Some(if s != [] && s[|s| - 1] == ')' then Strip(s[..|s| - 1]) else s)
  {
  }

  /** A playlist described as the data-processing generator describes a stamped one. */
  predicate GeneratedDescription(playlist: Value, venueName: string, month: string, stamp: string) {
    playlist.Object? && Lookup(playlist.fields, "description") == Some(Str(PlaylistGenerator.Description(venueName, month, Some(stamp))))
  }

  /** A description holding the marker is the one the creation time is read from. */
  lemma MarkedDescriptionOf(playlist: Value, d: string)
    requires playlist.Object? && Lookup(playlist.fields, "description") == Some(Str(d))
    requires StampTextAsWritten(d).Some?
    ensures MarkedDescription(playlist) == Some(d)
  {
    assert MarkerText(d).Some?;
  }

  /** The corrected creation time is the parse of the corrected text of the marked description. */
  lemma CorrectedCreationOf(playlist: Value, d: string, t: string, parseIso: string -> Option<int>)
    requires MarkedDescription(playlist) == Some(d) && StampText(d) == Some(t)
    ensures CorrectedCreationTime(playlist, parseIso) == parseIso(t)
  {
  }

  /** As written, the creation time of a generated test playlist is the parse of the stamp with
      its closing parenthesis. */
  lemma AsWrittenCreationTime(playlist: Value, venueName: string, month: string, stamp: string, parseIso: string -> Option<int>)
    requires ':' !in venueName && ':' !in month && 'C' !in stamp && Stripped(stamp)
    requires GeneratedDescription(playlist, venueName, month, stamp)
    ensures CreationTime(playlist, parseIso) == parseIso(stamp + ")")
  {
    var d := PlaylistGenerator.Description(venueName, month, Some(stamp));
    StampAsWrittenKeepsParenthesis(venueName, month, stamp);
    MarkedDescriptionOf(playlist, d);
  }

  /** With a parser that, like `fromisoformat`, rejects a text ending in ")", no generated test
      playlist ever expires, however old it is. */
  lemma AsWrittenGeneratedNeverExpires(playlist: Value, venueName: string, month: string, stamp: string,
                                       cutoff: int, parseIso: string -> Option<int>)
    requires ':' !in venueName && ':' !in month && 'C' !in stamp && Stripped(stamp)
    requires GeneratedDescription(playlist, venueName, month, stamp)
    requires forall t :: |t| > 0 && t[|t| - 1] == ')' ==> parseIso(t).None?
    requires Index(playlist, "name").Some? && Index(playlist, "name").value.Str?
    ensures Expired(playlist, cutoff, parseIso) == Some(false)
  {
    AsWrittenCreationTime(playlist, venueName, month, stamp, parseIso);
    var t := stamp + ")";
    assert t[|t| - 1] == ')';
  }

  /** Corrected, the creation time of a generated test playlist is the parse of its stamp. */
  lemma CorrectedCreationTimeOfGenerated(playlist: Value, venueName: string, month: string, stamp: string,
                                         parseIso: string -> Option<int>)
    requires ':' !in venueName && ':' !in month && 'C' !in stamp && Stripped(stamp)
    requires GeneratedDescription(playlist, venueName, month, stamp)
    ensures CorrectedCreationTime(playlist, parseIso) == parseIso(stamp)
  {
    var d := PlaylistGenerator.Description(venueName, month, Some(stamp));
    StampRoundTrip(venueName, month, stamp);
    StampAsWrittenKeepsParenthesis(venueName, month, stamp);
    MarkedDescriptionOf(playlist, d);
    CorrectedCreationOf(playlist, d, stamp, parseIso);
  }
}
