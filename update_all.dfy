/** scripts/update_all.py: every venue of the city, or only a forced one, processed in map order.
    The venue map is an input; each `process_venue` call is returned, in order, as a `VenueCall`. */
module UpdateAll {
  import opened Wrappers
  import opened Values
  import opened Store
  import opened VenueProcessor
  import CollectEvents

  /** The keys to process, or `None` when a forced venue is not in the map. */
  function SelectKeys(venues: Fields, forceVenue: Option<string>): Option<seq<string>> {
    if CollectEvents.GivenText(forceVenue) then
      if forceVenue.value in Keys(venues) then Some([forceVenue.value]) else None
    else Some(Keys(venues))
  }

  /** One call per key, in order, all with the same directory and flag: `process_venue` catches
      its own errors, and any other is logged before the loop goes on. */
  function KeyCalls(keys: seq<string>, outputDir: string, force: bool): (r: seq<VenueCall>)
  {
    seq(|keys|, i requires 0 <= i < |keys| => VenueCall(keys[i], outputDir, force))
  }

  /** update_all */
  method UpdateAll(store: FileStore, venues: Fields, city: string, baseDir: string, forceVenue: Option<string>,
                   forceAll: bool) returns (calls: seq<VenueCall>)
    modifies store
    ensures SelectKeys(venues, forceVenue).None? ==>
      calls == [] && store.dirs == old(store.dirs) && store.files == old(store.files)
    ensures SelectKeys(venues, forceVenue).Some? ==>
      calls == KeyCalls(SelectKeys(venues, forceVenue).value, baseDir + "/" + city, CollectEvents.GivenText(forceVenue) || forceAll)
      && store.dirs == old(store.dirs) + DirChain(baseDir + "/" + city) && store.files == old(store.files)
  {
    var keys := Keys(venues);
    if CollectEvents.GivenText(forceVenue) {
      if forceVenue.value !in keys {
        return [];
      }
      keys := [forceVenue.value];
    }
    var venueDataDir := baseDir + "/" + city;
    store.MakeDirs(venueDataDir);
    var force := CollectEvents.GivenText(forceVenue) || forceAll;
    calls := [];
    for i := 0 to |keys|
      invariant calls == KeyCalls(keys[..i], venueDataDir, force)
      invariant store.dirs == old(store.dirs) + DirChain(venueDataDir) && store.files == old(store.files)
    {
      calls := calls + [VenueCall(keys[i], venueDataDir, force)];
    }
    assert keys[..|keys|] == keys;
  }

  /** Without a forced venue every venue of the map is processed once, in map order, and a forced
      venue is processed alone with `force` set. */
  lemma UpdateAllCalls(venues: Fields, forceVenue: Option<string>, outputDir: string, forceAll: bool)
    ensures !CollectEvents.GivenText(forceVenue) ==>
      var calls := KeyCalls(SelectKeys(venues, forceVenue).value, outputDir, forceAll);
      |calls| == |venues| && forall i :: 0 <= i < |venues| ==> calls[i].key == venues[i].0 && calls[i].force == forceAll
    ensures CollectEvents.GivenText(forceVenue) && forceVenue.value in Keys(venues) ==>
      KeyCalls(SelectKeys(venues, forceVenue).value, outputDir, true) == [VenueCall(forceVenue.value, outputDir, true)]
  {
    forall i | 0 <= i < |venues|
      ensures Keys(venues)[i] == venues[i].0
    {
      CollectEvents.KeysAt(venues, i);
    }
  }
}
