/** The Spotify Web API as the playlist code sees it: a client that sends one request at a time
    and gets back a decoded JSON reply or an exception, and the bounded retry loops wrapped
    around such calls. The service itself is a script of replies, one per request in the order
    the requests are sent. */
module Spotify {
  import opened Wrappers
  import opened Values

  /** The client calls the core makes. */
  datatype Request =
    | Me                                                    // `sp.me()`
    | Search(query: Value)                                  // `sp.search(q=..., type='artist', limit=1)`
    | TopTracks(artistId: Value, market: string)            // `sp.artist_top_tracks(id, market)`
    | CreatePlaylist(user: Value, name: string, description: string)  // `sp.user_playlist_create(...)`
    | AddItems(playlistId: Value, uris: seq<Value>)         // `sp.playlist_add_items(id, batch)`
    | UserPlaylists                                         // `sp.current_user_playlists()`
    | Unfollow(playlistId: Value)                           // `sp.current_user_unfollow_playlist(id)`

  /** A client: the requests sent so far, and the reply the service gives to the n-th request. */
  class Client {
    const replies: nat -> Call<Value>
    var log: seq<Request>

    constructor (replies: nat -> Call<Value>)
      ensures this.replies == replies && log == []
    {
      this.replies := replies;
      log := [];
    }

    /** Sends one request; the reply is the service's reply to the request's position. */
    method Send(r: Request) returns (reply: Call<Value>)
      modifies this
      ensures log == old(log) + [r] && reply == replies(|old(log)|)
    {
      reply := replies(|log|);
      log := log + [r];
    }
  }

  /** What a run of calls starting at some position gives: its result and the requests it sent. */
  datatype Exchange<+T> = Exchange(result: T, sent: seq<Request>)

  /** `for attempt in range(n): try: ...; return/break except: ...`: attempts one after the other,
      each starting where the previous one stopped sending, until one does not raise. `None`
      is every attempt raising, or no attempt at all when n <= 0. */
  function Retry<T>(attempt: nat -> Exchange<Call<T>>, k: nat, n: int): Exchange<Option<T>>
    decreases n
  {
    if n <= 0 then Exchange(None, [])
    else
      var a := attempt(k);
      match a.result
      case Returned(v) => Exchange(Some(v), a.sent)
      case Raised =>
        var rest := Retry(attempt, k + |a.sent|, n - 1);
        Exchange(rest.result, a.sent + rest.sent)
  }

  /** Where the j-th attempt starts when the ones before it raised. */
  function AttemptAt<T>(attempt: nat -> Exchange<Call<T>>, k: nat, j: nat): nat
    decreases j
  {
    if j == 0 then k else AttemptAt(attempt, k + |attempt(k).sent|, j - 1)
  }

  /** The requests of the first m attempts. */
  function SentUpTo<T>(attempt: nat -> Exchange<Call<T>>, k: nat, m: nat): seq<Request>
    decreases m
  {
    if m == 0 then [] else attempt(k).sent + SentUpTo(attempt, k + |attempt(k).sent|, m - 1)
  }

  /** Attempt j is the first of the n allowed that does not raise. */
  ghost predicate FirstSuccess<T>(attempt: nat -> Exchange<Call<T>>, k: nat, n: int, j: nat) {
    j < n && attempt(AttemptAt(attempt, k, j)).result.Returned?
    && forall i: nat :: i < j ==> attempt(AttemptAt(attempt, k, i)).result.Raised?
  }

  /** The retry loop returns the first attempt that does not raise, after exactly the attempts up
      to it; when all n raise it gives up after exactly n. */
  lemma {:induction false} RetryFirstSuccess<T>(attempt: nat -> Exchange<Call<T>>, k: nat, n: int, j: nat)
    requires FirstSuccess(attempt, k, n, j)
    ensures Retry(attempt, k, n).result == Some(attempt(AttemptAt(attempt, k, j)).result.value)
    ensures Retry(attempt, k, n).sent == SentUpTo(attempt, k, j + 1)
    decreases j
  {
    var a := attempt(k);
    if j == 0 {
      assert SentUpTo(attempt, k + |a.sent|, 0) == [];
      assert a.sent + [] == a.sent;
    } else {
      assert attempt(AttemptAt(attempt, k, 0)).result.Raised?;
      var k' := k + |a.sent|;
      forall i: nat | i < j - 1
        ensures attempt(AttemptAt(attempt, k', i)).result.Raised?
      {
        assert AttemptAt(attempt, k, i + 1) == AttemptAt(attempt, k', i);
      }
      assert AttemptAt(attempt, k, j) == AttemptAt(attempt, k', j - 1);
      RetryFirstSuccess(attempt, k', n - 1, j - 1);
    }
  }

  /** When every attempt raises the loop gives up after exactly n of them. */
  lemma {:induction false} RetryExhausted<T>(attempt: nat -> Exchange<Call<T>>, k: nat, n: int)
    requires forall i: nat :: i < n ==> attempt(AttemptAt(attempt, k, i)).result.Raised?
    ensures Retry(attempt, k, n).result.None?
    ensures Retry(attempt, k, n).sent == SentUpTo(attempt, k, if n < 0 then 0 else n)
    decreases n
  {
    if n > 0 {
      var a := attempt(k);
      assert attempt(AttemptAt(attempt, k, 0)).result.Raised?;
      var k' := k + |a.sent|;
      forall i: nat | i < n - 1
        ensures attempt(AttemptAt(attempt, k', i)).result.Raised?
      {
        assert AttemptAt(attempt, k, i + 1) == AttemptAt(attempt, k', i);
      }
      RetryExhausted(attempt, k', n - 1);
    }
  }

  /** A result comes only from an attempt that did not raise, the first one. */
  lemma {:induction false} RetryHasFirstSuccess<T>(attempt: nat -> Exchange<Call<T>>, k: nat, n: int)
    requires Retry(attempt, k, n).result.Some?
    ensures exists j: nat :: FirstSuccess(attempt, k, n, j)
    decreases n
  {
    var a := attempt(k);
    if a.result.Returned? {
      assert FirstSuccess(attempt, k, n, 0);
    } else {
      var k' := k + |a.sent|;
      RetryHasFirstSuccess(attempt, k', n - 1);
      var j: nat :| FirstSuccess(attempt, k', n - 1, j);
      forall i: nat | i < j + 1
        ensures attempt(AttemptAt(attempt, k, i)).result.Raised?
      {
        if i > 0 {
          assert AttemptAt(attempt, k, i) == AttemptAt(attempt, k', i - 1);
        }
      }
      assert AttemptAt(attempt, k, j + 1) == AttemptAt(attempt, k', j);
      assert FirstSuccess(attempt, k, n, j + 1);
    }
  }

  /** The state of a retry loop run by a method: the attempts from start, n in all, are the ones
      already sent followed by the m still allowed from position pos. */
  ghost predicate Resumes<T>(attempt: nat -> Exchange<Call<T>>, start: nat, n: int, sent: seq<Request>, m: int) {
    var rest := Retry(attempt, start + |sent|, m);
    Retry(attempt, start, n) == Exchange(rest.result, sent + rest.sent)
  }

  /** Before the first attempt the whole loop is still to run. */
  lemma ResumesAtStart<T>(attempt: nat -> Exchange<Call<T>>, start: nat, n: int)
    ensures Resumes(attempt, start, n, [], n)
  {
    var none: seq<Request> := [];
    assert none + Retry(attempt, start, n).sent == Retry(attempt, start, n).sent;
  }

  /** One more attempt raised: the loop goes on after it. */
  lemma ResumeAfterRaise<T>(attempt: nat -> Exchange<Call<T>>, start: nat, n: int, sent: seq<Request>, m: int)
    requires Resumes(attempt, start, n, sent, m) && m > 0
    requires attempt(start + |sent|).result.Raised?
    ensures Resumes(attempt, start, n, sent + attempt(start + |sent|).sent, m - 1)
  {
    var a := attempt(start + |sent|);
    assert start + |sent + a.sent| == start + |sent| + |a.sent|;
    assert sent + (a.sent + Retry(attempt, start + |sent| + |a.sent|, m - 1).sent)
      == (sent + a.sent) + Retry(attempt, start + |sent| + |a.sent|, m - 1).sent;
  }

  /** An attempt did not raise: the loop stops with its value. */
  lemma ResumeReturned<T>(attempt: nat -> Exchange<Call<T>>, start: nat, n: int, sent: seq<Request>, m: int)
    requires Resumes(attempt, start, n, sent, m) && m > 0
    requires attempt(start + |sent|).result.Returned?
    ensures Retry(attempt, start, n)
      == Exchange(Some(attempt(start + |sent|).result.value), sent + attempt(start + |sent|).sent)
  {
  }

  /** No attempt is left: the loop gave up. */
  lemma ResumeExhausted<T>(attempt: nat -> Exchange<Call<T>>, start: nat, n: int, sent: seq<Request>, m: int)
    requires Resumes(attempt, start, n, sent, m) && m <= 0
    ensures Retry(attempt, start, n) == Exchange(None, sent)
  {
    assert sent + [] == sent;
  }

  /** Every attempt sends at most m requests. */
  ghost predicate SendsAtMost<T>(attempt: nat -> Exchange<Call<T>>, m: nat) {
    forall k: nat :: |attempt(k).sent| <= m
  }

  /** n attempts of at most m requests each send at most m * n requests. */
  lemma {:induction false} RetrySentBound<T>(attempt: nat -> Exchange<Call<T>>, k: nat, n: int, m: nat)
    requires SendsAtMost(attempt, m)
    ensures |Retry(attempt, k, n).sent| <= m * (if n < 0 then 0 else n)
    decreases n
  {
    if n > 0 {
      var a := attempt(k);
      assert |a.sent| <= m;
      if a.result.Raised? {
        RetrySentBound(attempt, k + |a.sent|, n - 1, m);
        assert m * (n - 1) + m == m * n;
      } else {
        assert m <= m * n;
      }
    }
  }

  /** Every attempt sends only requests `ok` accepts. */
  ghost predicate SendsOnly<T>(attempt: nat -> Exchange<Call<T>>, ok: Request -> bool) {
    forall k: nat, q :: q in attempt(k).sent ==> ok(q)
  }

  /** The retry loop sends nothing its attempts would not. */
  lemma {:induction false} RetrySendsOnly<T>(attempt: nat -> Exchange<Call<T>>, k: nat, n: int, ok: Request -> bool)
    requires SendsOnly(attempt, ok)
    ensures forall q :: q in Retry(attempt, k, n).sent ==> ok(q)
    decreases n
  {
    if n > 0 {
      var a := attempt(k);
      if a.result.Raised? {
        RetrySendsOnly(attempt, k + |a.sent|, n - 1, ok);
      }
    }
  }

  /** The retry loop returns nothing its attempts would not: a property every returning attempt's
      value has, the loop's value has too. */
  lemma {:induction false} RetryReturnsOnly<T>(attempt: nat -> Exchange<Call<T>>, k: nat, n: int, ok: T -> bool)
    requires forall j: nat :: attempt(j).result.Returned? ==> ok(attempt(j).result.value)
    ensures Retry(attempt, k, n).result.Some? ==> ok(Retry(attempt, k, n).result.value)
    decreases n
  {
    if n > 0 {
      var a := attempt(k);
      if a.result.Raised? {
        RetryReturnsOnly(attempt, k + |a.sent|, n - 1, ok);
      }
    }
  }

  /** What a dict filled by one retry loop per key holds, and the requests sent. */
  datatype Collected<T> = Collected(results: map<string, T>, sent: seq<Request>)

  /** `for key in keys: for attempt in range(n): try: results[key] = ...; break
      except: if attempt == n - 1: results[key] = fallback`, starting at request position k0.
      When n <= 0 no attempt runs and the key is not set. */
  function RetryAll<T>(attemptFor: string -> (nat -> Exchange<Call<T>>), keys: seq<string>, k0: nat, n: int, fallback: T): Collected<T>
    decreases |keys|
  {
    if keys == [] then Collected(map[], [])
    else CollectStep(attemptFor, RetryAll(attemptFor, keys[..|keys| - 1], k0, n, fallback), keys[|keys| - 1], k0, n, fallback)
  }

  /** One key's retry loop, run after the keys before it sent their requests. */
  function CollectStep<T>(attemptFor: string -> (nat -> Exchange<Call<T>>), prev: Collected<T>, key: string, k0: nat, n: int, fallback: T): Collected<T> {
    var r := Retry(attemptFor(key), k0 + |prev.sent|, n);
    var results := if r.result.Some? then prev.results[key := r.result.value]
      else if n >= 1 then prev.results[key := fallback]
      else prev.results;
    Collected(results, prev.sent + r.sent)
  }

  /** One key's step in terms of the answer its retry loop gave and the dict stored from it. */
  lemma CollectStepOf<T>(attemptFor: string -> (nat -> Exchange<Call<T>>), prev: Collected<T>, key: string, k0: nat, n: int,
                         fallback: T, answer: Option<T>, results: map<string, T>)
    requires answer == Retry(attemptFor(key), k0 + |prev.sent|, n).result
    requires answer.Some? ==> results == prev.results[key := answer.value]
    requires answer.None? && n >= 1 ==> results == prev.results[key := fallback]
    requires answer.None? && n < 1 ==> results == prev.results
    ensures CollectStep(attemptFor, prev, key, k0, n, fallback)
      == Collected(results, prev.sent + Retry(attemptFor(key), k0 + |prev.sent|, n).sent)
  {
  }

  /** The dict after one more key is what that key's retry loop leaves. */
  lemma RetryAllSnoc<T>(attemptFor: string -> (nat -> Exchange<Call<T>>), keys: seq<string>, key: string, k0: nat, n: int, fallback: T)
    ensures RetryAll(attemptFor, keys + [key], k0, n, fallback)
      == CollectStep(attemptFor, RetryAll(attemptFor, keys, k0, n, fallback), key, k0, n, fallback)
  {
    assert (keys + [key])[..|keys|] == keys;
  }

  /** A key is set exactly for every key listed, unless no attempt is allowed; then none is. */
  lemma {:induction false} RetryAllKeys<T>(attemptFor: string -> (nat -> Exchange<Call<T>>), keys: seq<string>, k0: nat, n: int, fallback: T)
    ensures forall key :: key in RetryAll(attemptFor, keys, k0, n, fallback).results <==> n >= 1 && key in keys
    decreases |keys|
  {
    if keys != [] {
      var init := keys[..|keys| - 1];
      RetryAllKeys(attemptFor, init, k0, n, fallback);
      assert keys == init + [keys[|keys| - 1]];
      if n < 1 {
        assert Retry(attemptFor(keys[|keys| - 1]), k0 + |RetryAll(attemptFor, init, k0, n, fallback).sent|, n).result.None?;
      }
    }
  }

  /** A stored value is what some attempt for that key returned, or the fallback. */
  lemma {:induction false} RetryAllValues<T>(attemptFor: string -> (nat -> Exchange<Call<T>>), keys: seq<string>, k0: nat, n: int, fallback: T, key: string)
    requires key in RetryAll(attemptFor, keys, k0, n, fallback).results
    ensures var v := RetryAll(attemptFor, keys, k0, n, fallback).results[key];
      v == fallback || exists k: nat :: attemptFor(key)(k).result == Returned(v)
    decreases |keys|
  {
    var init := keys[..|keys| - 1];
    var prev := RetryAll(attemptFor, init, k0, n, fallback);
    var last := keys[|keys| - 1];
    var r := Retry(attemptFor(last), k0 + |prev.sent|, n);
    if key == last && r.result.Some? {
      RetryHasFirstSuccess(attemptFor(last), k0 + |prev.sent|, n);
      var j: nat :| FirstSuccess(attemptFor(last), k0 + |prev.sent|, n, j);
      RetryFirstSuccess(attemptFor(last), k0 + |prev.sent|, n, j);
      assert attemptFor(key)(AttemptAt(attemptFor(last), k0 + |prev.sent|, j)).result == Returned(r.result.value);
    } else if key != last {
      assert key in prev.results;
      assert RetryAll(attemptFor, keys, k0, n, fallback).results[key] == prev.results[key];
      RetryAllValues(attemptFor, init, k0, n, fallback, key);
    } else if n >= 1 {
      assert RetryAll(attemptFor, keys, k0, n, fallback).results[key] == fallback;
    } else {
      RetryAllValues(attemptFor, init, k0, n, fallback, key);
    }
  }

  /** The requests sent for all keys: at most m * n per key when an attempt sends at most m. */
  lemma {:induction false} RetryAllSentBound<T>(attemptFor: string -> (nat -> Exchange<Call<T>>), keys: seq<string>, k0: nat, n: int, fallback: T, m: nat)
    requires forall key :: SendsAtMost(attemptFor(key), m)
    ensures |RetryAll(attemptFor, keys, k0, n, fallback).sent| <= |keys| * (m * (if n < 0 then 0 else n))
    decreases |keys|
  {
    if keys != [] {
      var init := keys[..|keys| - 1];
      var prev := RetryAll(attemptFor, init, k0, n, fallback);
      RetryAllSentBound(attemptFor, init, k0, n, fallback, m);
      RetrySentBound(attemptFor(keys[|keys| - 1]), k0 + |prev.sent|, n, m);
      var b := m * (if n < 0 then 0 else n);
      assert (|keys| - 1) * b + b == |keys| * b;
    }
  }
}
