/** scripts/venue_data/scrapers/bandisintown.py: reading the events of a venue from the
    schema.org JSON-LD scripts of its Bands in Town page. The browser is the function `page`, the
    JSON decoder `decode` and `datetime.fromisoformat` the function `fromIso`. */
module BandsInTown {
  import opened Wrappers
  import opened Strings
  import opened Values
  import opened Calendar
  import opened Events

  /** What one JSON-LD item contributes. */
  datatype ItemOutcome =
    | Skip          // not a music event, or an error caught for this item
    | Emit(e: Event)
    | Raise         // an error outside the per-item `try`: the whole call raises

  /** `venue_info['scrapers'][self.scraper_type]['url']`; `None` is the `KeyError`/`TypeError`. */
  function ScraperUrl(venueInfo: Value, scraperType: string): Option<string> {
    if !venueInfo.Object? then None
    else match Lookup(venueInfo.fields, "scrapers")
      case Some(Object(s)) => (match Lookup(s, scraperType)
        case Some(Object(c)) => (match Lookup(c, "url")
          case Some(Str(url)) => Some(url)
          case _ => None)
        case _ => None)
      case _ => None
  }

  /** `x[key]` on a value that must be a dict holding a text under the key. */
  function TextAt(v: Value, key: string): Option<string> {
    if !v.Object? then None
    else match Lookup(v.fields, key)
      case Some(Str(t)) => Some(t)
      case _ => None
  }

  /** The item is a well-formed music event that stands for `e`: a dict of `@type` "MusicEvent"
      whose performer's name is the event's name, whose `startDate` text `fromisoformat` reads as
      the event's date once every "Z" becomes "+00:00", with the venue's `name` as the venue. */
  predicate MusicEventOf(item: Value, venueInfo: Value, fromIso: string -> Option<DateTime>, e: Event) {
    && item.Object?
    && Lookup(item.fields, "@type") == Some(Str("MusicEvent"))
    && Lookup(item.fields, "performer").Some?
    && TextAt(Lookup(item.fields, "performer").value, "name") == Some(e.name)
    && TextAt(item, "startDate").Some?
    && fromIso(ReplaceChar(TextAt(item, "startDate").value, 'Z', "+00:00")) == Some(e.date)
    && TextAt(venueInfo, "name") == Some(e.venue)
  }

  /** One item of a JSON-LD list. `item.get('@type')` runs outside the per-item `try`, so an item
      that is not a dict makes the call raise. A music event needs a performer name, a
      `startDate` text that `fromisoformat` accepts after every "Z" becomes "+00:00", and the
      venue's `name`. `recordTakesVenue` says whether the record type accepts a `venue`
      argument; the one the scraper imports does not, and its `TypeError` is caught per item. */
  function ItemEvent(item: Value, venueInfo: Value, fromIso: string -> Option<DateTime>,
                     recordTakesVenue: bool): (r: ItemOutcome)
    ensures r.Raise? <==> !item.Object?
    ensures r.Emit? ==> recordTakesVenue && MusicEventOf(item, venueInfo, fromIso, r.e)
    ensures !recordTakesVenue ==> !r.Emit?
  {
    if !item.Object? then Raise
    else if Lookup(item.fields, "@type") != Some(Str("MusicEvent")) then Skip
    else
      var performer := Lookup(item.fields, "performer");
      if performer.None? then Skip
      else match (TextAt(performer.value, "name"), TextAt(item, "startDate"))
        case (Some(artist), Some(dateStr)) =>
          (match (fromIso(ReplaceChar(dateStr, 'Z', "+00:00")), TextAt(venueInfo, "name"))
            case (Some(date), Some(venue)) => if recordTakesVenue then Emit(Event(artist, date, venue)) else Skip
            case _ => Skip)
        case _ => Skip
  }

  /** Conversely, with a record type that takes a venue, a well-formed music event becomes its
      event: its performer's name, its parsed date and the venue's name. */
  lemma MusicEventEmitted(item: Value, venueInfo: Value, fromIso: string -> Option<DateTime>, e: Event)
    requires MusicEventOf(item, venueInfo, fromIso, e)
    ensures ItemEvent(item, venueInfo, fromIso, true) == Emit(e)
  {
  }

  /** The events an item's outcome adds to the list. */
  function OutcomeEvents(o: ItemOutcome): seq<Event> {
    if o.Emit? then [o.e] else []
  }

  /** The events of the items of one list, in order; `None` when an item raises. */
  function ItemsEvents(items: seq<Value>, venueInfo: Value, fromIso: string -> Option<DateTime>,
                       recordTakesVenue: bool): Option<seq<Event>> {
    if items == [] then Some([])
    else match ItemsEvents(items[..|items| - 1], venueInfo, fromIso, recordTakesVenue)
      case None => None
      case Some(es) => match ItemEvent(items[|items| - 1], venueInfo, fromIso, recordTakesVenue)
        case Raise => None
        case Skip => Some(es)
        case Emit(e) => Some(es + [e])
  }

  /** Two lists' results side by side: the events of each, or `None` when either raises. */
  function JoinEvents(a: Option<seq<Event>>, b: Option<seq<Event>>): Option<seq<Event>> {
    if a.None? || b.None? then None else Some(a.value + b.value)
  }

  /** The items are read one at a time: the items of two lists one after the other give the
      events of each, one after the other. */
  lemma {:induction false} ItemsEventsAppend(a: seq<Value>, b: seq<Value>, venueInfo: Value,
                                             fromIso: string -> Option<DateTime>, recordTakesVenue: bool)
    ensures ItemsEvents(a + b, venueInfo, fromIso, recordTakesVenue)
      == JoinEvents(ItemsEvents(a, venueInfo, fromIso, recordTakesVenue), ItemsEvents(b, venueInfo, fromIso, recordTakesVenue))
    decreases |b|
  {
    if b == [] {
      assert a + b == a;
      var ea := ItemsEvents(a, venueInfo, fromIso, recordTakesVenue);
      if ea.Some? {
        assert ea.value + [] == ea.value;
      }
    } else {
      var b', x := b[..|b| - 1], b[|b| - 1];
      assert (a + b)[..|a + b| - 1] == a + b';
      assert (a + b)[|a + b| - 1] == x;
      ItemsEventsAppend(a, b', venueInfo, fromIso, recordTakesVenue);
      var ea, eb' := ItemsEvents(a, venueInfo, fromIso, recordTakesVenue), ItemsEvents(b', venueInfo, fromIso, recordTakesVenue);
      if ea.Some? && eb'.Some? {
        match ItemEvent(x, venueInfo, fromIso, recordTakesVenue)
        case Raise =>
        case Skip =>
        case Emit(e) => assert ea.value + eb'.value + [e] == ea.value + (eb'.value + [e]);
      }
    }
  }

  /** The call goes through a list exactly when every item is a dict. */
  lemma {:induction false} ItemsEventsSome(items: seq<Value>, venueInfo: Value, fromIso: string -> Option<DateTime>,
                                           recordTakesVenue: bool)
    ensures ItemsEvents(items, venueInfo, fromIso, recordTakesVenue).Some? <==> forall k :: 0 <= k < |items| ==> items[k].Object?
  {
    if items != [] {
      var init := items[..|items| - 1];
      ItemsEventsSome(init, venueInfo, fromIso, recordTakesVenue);
      assert forall k :: 0 <= k < |init| ==> init[k] == items[k];
    }
  }

  /** In a list that goes through, item k's event comes after the events of the items before it
      and before those of the items after it. */
  lemma ItemsEventsAt(items: seq<Value>, k: int, venueInfo: Value, fromIso: string -> Option<DateTime>,
                      recordTakesVenue: bool)
    requires 0 <= k < |items| && ItemsEvents(items, venueInfo, fromIso, recordTakesVenue).Some?
    ensures ItemsEvents(items[..k], venueInfo, fromIso, recordTakesVenue).Some?
    ensures ItemsEvents(items[k + 1..], venueInfo, fromIso, recordTakesVenue).Some?
    ensures ItemsEvents(items, venueInfo, fromIso, recordTakesVenue).value
      == ItemsEvents(items[..k], venueInfo, fromIso, recordTakesVenue).value
         + OutcomeEvents(ItemEvent(items[k], venueInfo, fromIso, recordTakesVenue))
         + ItemsEvents(items[k + 1..], venueInfo, fromIso, recordTakesVenue).value
  {
    var pre, x, post := items[..k], items[k], items[k + 1..];
    assert items == pre + ([x] + post);
    ItemsEventsAppend(pre, [x] + post, venueInfo, fromIso, recordTakesVenue);
    ItemsEventsAppend([x], post, venueInfo, fromIso, recordTakesVenue);
    assert [x][..0] == [];
    var one := ItemsEvents([x], venueInfo, fromIso, recordTakesVenue);
    assert one.Some? ==> one.value == OutcomeEvents(ItemEvent(x, venueInfo, fromIso, recordTakesVenue));
  }

  /** With a record type that takes a venue, every well-formed music event of a list that goes
      through is among its events, in its place in the list. */
  lemma ItemsEventsComplete(items: seq<Value>, k: int, venueInfo: Value, fromIso: string -> Option<DateTime>, e: Event)
    requires 0 <= k < |items| && ItemsEvents(items, venueInfo, fromIso, true).Some?
    requires MusicEventOf(items[k], venueInfo, fromIso, e)
    ensures ItemsEvents(items[..k], venueInfo, fromIso, true).Some? && ItemsEvents(items[k + 1..], venueInfo, fromIso, true).Some?
    ensures ItemsEvents(items, venueInfo, fromIso, true).value
      == ItemsEvents(items[..k], venueInfo, fromIso, true).value + [e] + ItemsEvents(items[k + 1..], venueInfo, fromIso, true).value
    ensures e in ItemsEvents(items, venueInfo, fromIso, true).value
  {
    ItemsEventsAt(items, k, venueInfo, fromIso, true);
    MusicEventEmitted(items[k], venueInfo, fromIso, e);
    var whole := ItemsEvents(items, venueInfo, fromIso, true).value;
    var pre := ItemsEvents(items[..k], venueInfo, fromIso, true).value;
    assert whole[|pre|] == e;
  }

  /** The events of one script: only a JSON list counts; text that does not decode is skipped. */
  function PayloadEvents(payload: Option<Value>, venueInfo: Value, fromIso: string -> Option<DateTime>,
                         recordTakesVenue: bool): Option<seq<Event>> {
    match payload
    case Some(List(items)) => ItemsEvents(items, venueInfo, fromIso, recordTakesVenue)
    case _ => Some([])
  }

  /** The events of all scripts of the page, in page order; `None` when the call raises. */
  function ScriptsEvents(scripts: seq<string>, venueInfo: Value, decode: string -> Option<Value>,
                         fromIso: string -> Option<DateTime>, recordTakesVenue: bool): Option<seq<Event>> {
    if scripts == [] then Some([])
    else match ScriptsEvents(scripts[..|scripts| - 1], venueInfo, decode, fromIso, recordTakesVenue)
      case None => None
      case Some(es) => match PayloadEvents(decode(scripts[|scripts| - 1]), venueInfo, fromIso, recordTakesVenue)
        case None => None
        case Some(more) => Some(es + more)
  }

  /** As the scraper is written, with a record type that takes no venue, not one event survives:
      every music event is dropped by the caught `TypeError`. */
  lemma {:induction false} AsWrittenFindsNoEvents(scripts: seq<string>, venueInfo: Value,
                                                  decode: string -> Option<Value>, fromIso: string -> Option<DateTime>)
    ensures ScriptsEvents(scripts, venueInfo, decode, fromIso, false).Some? ==>
      ScriptsEvents(scripts, venueInfo, decode, fromIso, false).value == []
  {
    if scripts != [] {
      AsWrittenFindsNoEvents(scripts[..|scripts| - 1], venueInfo, decode, fromIso);
      var payload := decode(scripts[|scripts| - 1]);
      if payload.Some? && payload.value.List? {
        AsWrittenItemsEmpty(payload.value.items, venueInfo, fromIso);
      }
      var more := PayloadEvents(payload, venueInfo, fromIso, false);
      var prev := ScriptsEvents(scripts[..|scripts| - 1], venueInfo, decode, fromIso, false);
      if prev.Some? && more.Some? {
        assert prev.value + more.value == [];
      }
    }
  }

  /** With a record type that takes no venue every item's construction raises, so the items give no event. */
  lemma {:induction false} AsWrittenItemsEmpty(items: seq<Value>, venueInfo: Value, fromIso: string -> Option<DateTime>)
    ensures ItemsEvents(items, venueInfo, fromIso, false).Some? ==> ItemsEvents(items, venueInfo, fromIso, false).value == []
  {
    if items != [] {
      AsWrittenItemsEmpty(items[..|items| - 1], venueInfo, fromIso);
    }
  }

  /** Every event found comes from a music-event item of the page, carries the venue's name, and
      its date is what `fromisoformat` read from the item's `startDate`. */
  lemma {:induction false} ItemsEventsSound(items: seq<Value>, venueInfo: Value, fromIso: string -> Option<DateTime>,
                                            recordTakesVenue: bool, e: Event)
    requires ItemsEvents(items, venueInfo, fromIso, recordTakesVenue).Some?
    requires e in ItemsEvents(items, venueInfo, fromIso, recordTakesVenue).value
    ensures exists item :: item in items && ItemEvent(item, venueInfo, fromIso, recordTakesVenue) == Emit(e)
  {
    var init := items[..|items| - 1];
    var last := items[|items| - 1];
    var es := ItemsEvents(init, venueInfo, fromIso, recordTakesVenue).value;
    if e in es {
      ItemsEventsSound(init, venueInfo, fromIso, recordTakesVenue, e);
      var item :| item in init && ItemEvent(item, venueInfo, fromIso, recordTakesVenue) == Emit(e);
      assert item in items;
    } else {
      assert ItemEvent(last, venueInfo, fromIso, recordTakesVenue) == Emit(e);
    }
  }

  /** A list payload holding an item that is not a dict makes the whole call raise. */
  lemma {:induction false} NonDictItemRaises(items: seq<Value>, venueInfo: Value, fromIso: string -> Option<DateTime>,
                                             recordTakesVenue: bool, k: int)
    requires 0 <= k < |items| && !items[k].Object?
    ensures ItemsEvents(items, venueInfo, fromIso, recordTakesVenue).None?
  {
    if k < |items| - 1 {
      NonDictItemRaises(items[..|items| - 1], venueInfo, fromIso, recordTakesVenue, k);
    }
  }

  /** The loops of get_events over the scripts and the items of each list; `recordTakesVenue`
      says whether the record type accepts a `venue` argument. */
  method CollectEvents(scripts: seq<string>, venueInfo: Value, decode: string -> Option<Value>,
                       fromIso: string -> Option<DateTime>, recordTakesVenue: bool) returns (r: Option<seq<Event>>)
    ensures r == ScriptsEvents(scripts, venueInfo, decode, fromIso, recordTakesVenue)
  {
    var events: seq<Event> := [];
    for i := 0 to |scripts|
      invariant ScriptsEvents(scripts[..i], venueInfo, decode, fromIso, recordTakesVenue) == Some(events)
    {
      ScriptsEventsPrefix(scripts, i, venueInfo, decode, fromIso, recordTakesVenue);
      var payload := decode(scripts[i]);
      if payload.Some? && payload.value.List? {
        var found := CollectItems(payload.value.items, venueInfo, fromIso, recordTakesVenue);
        if found.None? {
          ScriptsRaise(scripts, venueInfo, decode, fromIso, recordTakesVenue, i);
          return None;
        }
        events := events + found.value;
      } else {
        assert events + [] == events;
      }
    }
    assert scripts[..|scripts|] == scripts;
    return Some(events);
  }

  /** The item loop of one JSON list. */
  method CollectItems(items: seq<Value>, venueInfo: Value, fromIso: string -> Option<DateTime>, recordTakesVenue: bool)
    returns (r: Option<seq<Event>>)
    ensures r == ItemsEvents(items, venueInfo, fromIso, recordTakesVenue)
  {
    var found: seq<Event> := [];
    for j := 0 to |items|
      invariant ItemsEvents(items[..j], venueInfo, fromIso, recordTakesVenue) == Some(found)
    {
      ItemsEventsPrefix(items, j, venueInfo, fromIso, recordTakesVenue);
      var outcome := ItemEvent(items[j], venueInfo, fromIso, recordTakesVenue);
      if outcome.Raise? {
        NonDictItemRaises(items, venueInfo, fromIso, recordTakesVenue, j);
        return None;
      }
      if outcome.Emit? {
        found := found + [outcome.e];
      }
    }
    assert items[..|items|] == items;
    return Some(found);
  }

  /** The item loop over a prefix one item longer: one more item, unless it had raised. */
  lemma ItemsEventsPrefix(items: seq<Value>, j: nat, venueInfo: Value, fromIso: string -> Option<DateTime>,
                          recordTakesVenue: bool)
    requires j < |items|
    ensures ItemsEvents(items[..j + 1], venueInfo, fromIso, recordTakesVenue) ==
      match ItemsEvents(items[..j], venueInfo, fromIso, recordTakesVenue)
      case None => None
      case Some(es) => match ItemEvent(items[j], venueInfo, fromIso, recordTakesVenue)
        case Raise => None
        case Skip => Some(es)
        case Emit(e) => Some(es + [e])
  {
    assert items[..j + 1][..j] == items[..j];
  }

  /** The script loop over a prefix one script longer: one more script, unless it had raised. */
  lemma ScriptsEventsPrefix(scripts: seq<string>, i: nat, venueInfo: Value, decode: string -> Option<Value>,
                            fromIso: string -> Option<DateTime>, recordTakesVenue: bool)
    requires i < |scripts|
    ensures ScriptsEvents(scripts[..i + 1], venueInfo, decode, fromIso, recordTakesVenue) ==
      match ScriptsEvents(scripts[..i], venueInfo, decode, fromIso, recordTakesVenue)
      case None => None
      case Some(es) => match PayloadEvents(decode(scripts[i]), venueInfo, fromIso, recordTakesVenue)
        case None => None
        case Some(more) => Some(es + more)
  {
    assert scripts[..i + 1][..i] == scripts[..i];
  }

  /** A script whose payload raises makes the whole page raise. */
  lemma {:induction false} ScriptsRaise(scripts: seq<string>, venueInfo: Value, decode: string -> Option<Value>,
                                        fromIso: string -> Option<DateTime>, recordTakesVenue: bool, k: int)
    requires 0 <= k < |scripts|
    requires PayloadEvents(decode(scripts[k]), venueInfo, fromIso, recordTakesVenue).None?
    ensures ScriptsEvents(scripts, venueInfo, decode, fromIso, recordTakesVenue).None?
  {
    if k < |scripts| - 1 {
      ScriptsRaise(scripts[..|scripts| - 1], venueInfo, decode, fromIso, recordTakesVenue, k);
    }
  }

  class BandsInTownScraper {
    /** The page the browser has loaded, if any. */
    var loadedUrl: Option<string>

    constructor ()
      ensures loadedUrl == None
    {
      loadedUrl := None;
    }

    /** The `scraper_type` property. */
    function ScraperType(): string {
      "bandisintown"
    }

    /** get_events: loads the venue's Bands in Town page and reads its JSON-LD events. `None` is a
        raised exception: a configuration without the page's URL, a page that fails to load, or an
        item that is not a dict. `page(url)` returns the texts of the page's JSON-LD scripts. The
        record type the scraper imports takes no `venue`, so every music event is dropped and a
        call that returns returns no event. */
    method GetEvents(venueKey: string, venueInfo: Value, page: string -> Call<seq<string>>,
                     decode: string -> Option<Value>, fromIso: string -> Option<DateTime>)
      returns (r: Option<seq<Event>>)
      modifies this
      ensures ScraperUrl(venueInfo, ScraperType()).None? ==> r.None? && loadedUrl == old(loadedUrl)
      ensures ScraperUrl(venueInfo, ScraperType()).Some? ==> loadedUrl == ScraperUrl(venueInfo, ScraperType())
      ensures ScraperUrl(venueInfo, ScraperType()).Some? ==>
        r == match page(ScraperUrl(venueInfo, ScraperType()).value)
             case Raised => None
             case Returned(scripts) => ScriptsEvents(scripts, venueInfo, decode, fromIso, false)
      ensures r.Some? ==> r.value == []
    {
      var url := ScraperUrl(venueInfo, ScraperType());
      if url.None? {
        return None;
      }
      loadedUrl := url;
      var loaded := page(url.value);
      if loaded.Raised? {
        return None;
      }
      r := CollectEvents(loaded.value, venueInfo, decode, fromIso, false);
      AsWrittenFindsNoEvents(loaded.value, venueInfo, decode, fromIso);
    }
  }
}
