/** scripts/collect_events.py: which venues of a city get processed, and with which `force` flag.
    The venue map is an input; each `process_venue` call is returned, in order, as a
    `VenueCall` (its own writes are those of VenueProcessor.ProcessVenue). */
module CollectEvents {
  import opened Wrappers
  import opened Values
  import opened Store
  import opened VenueProcessor

  /** An optional argument that Python's `if` takes as set: given and not empty. */
  predicate GivenText(o: Option<string>) { o.Some? && o.value != "" }
  /** A list argument that was given and is not empty. */
  predicate GivenList(o: Option<seq<string>>) { o.Some? && o.value != [] }

  /** `{k: v for k, v in venues.items() if k in test_venues}` */
  function KeepListed(venues: Fields, listed: seq<string>): Fields {
    if venues == [] then []
    else
      var last := venues[|venues| - 1];
      KeepListed(venues[..|venues| - 1], listed) + (if last.0 in listed then [last] else [])
  }

  /** An entry is kept exactly when it is in the map and its key is listed. */
  lemma {:induction false} KeepListedMembers(venues: Fields, listed: seq<string>, entry: (string, Value))
    ensures entry in KeepListed(venues, listed) <==> entry in venues && entry.0 in listed
  {
    if venues != [] {
      var init := venues[..|venues| - 1];
      KeepListedMembers(init, listed, entry);
      assert venues == init + [venues[|venues| - 1]];
    }
  }

  /** The venues to process, or `None` when the function returns early: a `force_venue` not in
      the map, or a `test_venues` list that keeps none. `force_venue` takes precedence. */
  function SelectVenues(venues: Fields, forceVenue: Option<string>, testVenues: Option<seq<string>>): Option<Fields> {
    if GivenText(forceVenue) then
      match Lookup(venues, forceVenue.value)
      case None => None
      case Some(v) => Some([(forceVenue.value, v)])
    else if GivenList(testVenues) then
      var kept := KeepListed(venues, testVenues.value);
      if kept == [] then None else Some(kept)
    else Some(venues)
  }

  /** The calls for the selected venues in map order. A venue whose entry is not a dict fails at
      `venue_info.get(...)` before its call; that error is logged and the loop goes on. */
  function VenueCalls(selected: Fields, outputDir: string, force: bool): seq<VenueCall> {
    if selected == [] then []
    else
      var last := selected[|selected| - 1];
      VenueCalls(selected[..|selected| - 1], outputDir, force)
        + (if last.1.Object? then [VenueCall(last.0, outputDir, force)] else [])
  }

  /** One more entry adds its call at the end, exactly when the entry is a dict. */
  lemma VenueCallsSnoc(selected: Fields, entry: (string, Value), outputDir: string, force: bool)
    ensures VenueCalls(selected + [entry], outputDir, force)
      == VenueCalls(selected, outputDir, force) + (if entry.1.Object? then [VenueCall(entry.0, outputDir, force)] else [])
  {
    assert (selected + [entry])[..|selected|] == selected;
  }

  /** A venue is processed exactly when it is selected with a dict entry; every call carries the
      same flag and the city's directory. */
  lemma {:induction false} VenueCallsMembers(selected: Fields, outputDir: string, force: bool, c: VenueCall)
    ensures c in VenueCalls(selected, outputDir, force)
      <==> c.force == force && c.outputDir == outputDir && exists v :: (c.key, v) in selected && v.Object?
  {
    if selected != [] {
      var init, last := selected[..|selected| - 1], selected[|selected| - 1];
      VenueCallsMembers(init, outputDir, force, c);
      assert selected == init + [last];
      if c.force == force && c.outputDir == outputDir && exists v :: (c.key, v) in selected && v.Object? {
        var v :| (c.key, v) in selected && v.Object?;
        if (c.key, v) != last {
          assert (c.key, v) in init;
        }
      }
    }
  }

  /** One failing venue does not stop the others: the calls around it are the calls without it. */
  lemma {:induction false} FailingVenueIsolated(a: Fields, entry: (string, Value), b: Fields, outputDir: string, force: bool)
    requires !entry.1.Object?
    ensures VenueCalls(a + [entry] + b, outputDir, force) == VenueCalls(a, outputDir, force) + VenueCalls(b, outputDir, force)
    decreases |b|
  {
    if b == [] {
      assert a + [entry] + b == a + [entry];
      VenueCallsSnoc(a, entry, outputDir, force);
      assert VenueCalls(a, outputDir, force) + [] == VenueCalls(a, outputDir, force);
    } else {
      var b', last := b[..|b| - 1], b[|b| - 1];
      assert a + [entry] + b == (a + [entry] + b') + [last];
      assert b == b' + [last];
      VenueCallsSnoc(a + [entry] + b', last, outputDir, force);
      VenueCallsSnoc(b', last, outputDir, force);
      FailingVenueIsolated(a, entry, b', outputDir, force);
    }
  }

  /** A forced venue present in the map is the only one considered, whatever `test_venues` says. */
  lemma ForceVenueAlone(venues: Fields, forceVenue: Option<string>, testVenues: Option<seq<string>>, outputDir: string, force: bool)
    requires GivenText(forceVenue) && forceVenue.value in Keys(venues)
    ensures SelectVenues(venues, forceVenue, testVenues).Some?
    ensures forall c :: c in VenueCalls(SelectVenues(venues, forceVenue, testVenues).value, outputDir, force) ==> c.key == forceVenue.value
  {
    var sel := SelectVenues(venues, forceVenue, testVenues).value;
    forall c | c in VenueCalls(sel, outputDir, force)
      ensures c.key == forceVenue.value
    {
      VenueCallsMembers(sel, outputDir, force, c);
      var v :| (c.key, v) in sel && v.Object?;
      assert (c.key, v) == sel[0];
    }
  }

  /** Without a forced venue, a test list restricts the calls to listed venues. */
  lemma TestVenuesOnly(venues: Fields, forceVenue: Option<string>, testVenues: Option<seq<string>>, outputDir: string, force: bool)
    requires !GivenText(forceVenue) && GivenList(testVenues)
    requires SelectVenues(venues, forceVenue, testVenues).Some?
    ensures forall c :: c in VenueCalls(SelectVenues(venues, forceVenue, testVenues).value, outputDir, force) ==>
      c.key in testVenues.value && c.key in Keys(venues)
  {
    var sel := SelectVenues(venues, forceVenue, testVenues).value;
    forall c | c in VenueCalls(sel, outputDir, force)
      ensures c.key in testVenues.value && c.key in Keys(venues)
    {
      VenueCallsMembers(sel, outputDir, force, c);
      var v :| (c.key, v) in sel && v.Object?;
      KeepListedMembers(venues, testVenues.value, (c.key, v));
      KeysHave(venues, c.key, v);
    }
  }

  /** A key of an entry is among the keys. */
  lemma {:induction false} KeysHave(fields: Fields, k: string, v: Value)
    requires (k, v) in fields
    ensures k in Keys(fields)
  {
    var i :| 0 <= i < |fields| && fields[i] == (k, v);
    KeysAt(fields, i);
  }

  /** The i-th key is the key of the i-th entry. */
  lemma {:induction false} KeysAt(fields: Fields, i: int)
    requires 0 <= i < |fields|
    ensures Keys(fields)[i] == fields[i].0
  {
    if i > 0 {
      KeysAt(fields[1..], i - 1);
    }
  }

  /** process_city. The venue directory `{base}/{city}` is created once a selection exists;
      each selected venue is then processed with `force = force_venue or force_all`. */
  method ProcessCity(store: FileStore, venues: Fields, city: string, baseDir: string, forceVenue: Option<string>,
                     forceAll: bool, testVenues: Option<seq<string>>) returns (calls: seq<VenueCall>)
    modifies store
    ensures var sel := SelectVenues(venues, forceVenue, testVenues);
      sel.None? ==> calls == [] && store.dirs == old(store.dirs) && store.files == old(store.files)
    ensures var sel := SelectVenues(venues, forceVenue, testVenues);
      sel.Some? ==> calls == VenueCalls(sel.value, baseDir + "/" + city, GivenText(forceVenue) || forceAll)
    ensures SelectVenues(venues, forceVenue, testVenues).Some? ==>
      store.dirs == old(store.dirs) + DirChain(baseDir + "/" + city) && store.files == old(store.files)
  {
    var selected: Fields := venues;
    if GivenText(forceVenue) {
      var info := Lookup(venues, forceVenue.value);
      if info.None? {
        return [];
      }
      selected := [(forceVenue.value, info.value)];
    } else if GivenList(testVenues) {
      selected := KeepListed(venues, testVenues.value);
      if selected == [] {
        return [];
      }
    }
    var venueDataDir := baseDir + "/" + city;
    store.MakeDirs(venueDataDir);
    var force := GivenText(forceVenue) || forceAll;
    calls := [];
    for i := 0 to |selected|
      invariant calls == VenueCalls(selected[..i], venueDataDir, force)
      invariant store.dirs == old(store.dirs) + DirChain(venueDataDir) && store.files == old(store.files)
    {
      assert selected[..i + 1] == selected[..i] + [selected[i]];
      VenueCallsSnoc(selected[..i], selected[i], venueDataDir, force);
      var info := selected[i].1;
      var name := Get(info, "name", Str(selected[i].0));
      if name.None? {
        continue;
      }
      calls := calls + [VenueCall(selected[i].0, venueDataDir, force)];
    }
    assert selected[..|selected|] == selected;
  }
}
