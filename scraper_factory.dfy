/** scripts/venue_data/scraper_factory.py: the registry of scraper classes by type name, and the
    choice of a venue's scraper by the priorities in its configuration. */
module ScraperFactory {
  import opened Wrappers
  import opened Values

  /** A registered scraper class. Only the Bands in Town scraper is part of this model. */
  datatype ScraperKind = BandsInTownKind | OtherKind(className: string)

  datatype FactoryError =
    | NoScrapers            // the `ValueError` for a missing or empty `scrapers` entry
    | UnknownType(t: string) // the `ValueError` for a type nobody registered
    | BadConfig             // an `AttributeError` or `TypeError` from a malformed configuration

  const DEFAULT_PRIORITY := 999

  /** The sort key of one scraper entry: `x[1].get('priority', 999)`. Numbers (and booleans)
      compare with each other, texts with each other; any other key cannot be compared here. */
  datatype Key = NumKey(n: int) | StrKey(s: string) | OtherKey

  /** The sort key of a scraper entry: its priority, 999 when absent; `None` when the entry is not a dict. */
  function PriorityKey(entry: Value): Option<Key> {
    if !entry.Object? then None
    else match Lookup(entry.fields, "priority")
      case None => Some(NumKey(DEFAULT_PRIORITY))
      case Some(Num(n)) => Some(NumKey(n))
      case Some(Bool(b)) => Some(NumKey(if b then 1 else 0))
      case Some(Str(t)) => Some(StrKey(t))
      case Some(_) => Some(OtherKey)
  }

  /** Python's `a < b` on texts: code point by code point, a proper prefix first. */
  predicate StrLt(a: string, b: string) {
    if a == [] then b != []
    else if b == [] then false
    else if a[0] != b[0] then a[0] < b[0]
    else StrLt(a[1..], b[1..])
  }

  /** The text order is a strict order ... */
  lemma {:induction false} StrLtTrans(a: string, b: string, c: string)
    requires StrLt(a, b) && StrLt(b, c)
    ensures StrLt(a, c)
  {
    if a != [] && b != [] && c != [] && a[0] == b[0] && b[0] == c[0] {
      StrLtTrans(a[1..], b[1..], c[1..]);
    }
  }

  /** ... in which any two different texts compare. */
  lemma {:induction false} StrLtTotal(a: string, b: string)
    requires a != b
    ensures StrLt(a, b) || StrLt(b, a)
  {
    if a != [] && b != [] && a[0] == b[0] {
      assert a == [a[0]] + a[1..] && b == [b[0]] + b[1..];
      StrLtTotal(a[1..], b[1..]);
    }
  }

  /** No text is below itself. */
  lemma {:induction false} StrLtIrreflexive(a: string)
    ensures !StrLt(a, a)
  {
    if a != [] {
      StrLtIrreflexive(a[1..]);
    }
  }

  /** The position of the first smallest text: what a stable sort puts first. */
  function FirstMinStrIndex(ps: seq<string>): (r: nat)
    requires |ps| > 0
    ensures r < |ps|
  {
    if |ps| == 1 then 0
    else
      var k := FirstMinStrIndex(ps[..|ps| - 1]);
      if StrLt(ps[|ps| - 1], ps[k]) then |ps| - 1 else k
  }

  /** No text is below the one FirstMinStrIndex picks, and every text before it is above it. */
  lemma {:induction false} FirstMinStrIndexLeast(ps: seq<string>)
    requires |ps| > 0
    ensures var r := FirstMinStrIndex(ps);
      (forall j :: 0 <= j < |ps| ==> !StrLt(ps[j], ps[r])) && (forall j :: 0 <= j < r ==> StrLt(ps[r], ps[j]))
  {
    var r := FirstMinStrIndex(ps);
    if |ps| == 1 {
      StrLtIrreflexive(ps[0]);
    } else {
      var init, last := ps[..|ps| - 1], ps[|ps| - 1];
      FirstMinStrIndexLeast(init);
      var k := FirstMinStrIndex(init);
      assert forall j :: 0 <= j < |init| ==> init[j] == ps[j];
      if StrLt(last, ps[k]) {
        forall j | 0 <= j < |ps|
          ensures !StrLt(ps[j], last)
        {
          if j == |ps| - 1 {
            StrLtIrreflexive(last);
          } else if StrLt(ps[j], last) {
            StrLtTrans(ps[j], last, ps[k]);
          }
        }
        forall j | 0 <= j < r
          ensures StrLt(last, ps[j])
        {
          if ps[j] != ps[k] {
            StrLtTotal(ps[j], ps[k]);
            StrLtTrans(last, ps[k], ps[j]);
          }
        }
      } else {
        StrLtIrreflexive(ps[k]);
      }
    }
  }

  /** The position of the first smallest number: what a stable sort puts first. */
  function FirstMinIndex(ps: seq<int>): (r: nat)
    requires |ps| > 0
    ensures r < |ps|
    ensures forall j :: 0 <= j < |ps| ==> ps[r] <= ps[j]
    ensures forall j :: 0 <= j < r ==> ps[r] < ps[j]
  {
    if |ps| == 1 then 0
    else
      var k := FirstMinIndex(ps[..|ps| - 1]);
      if ps[|ps| - 1] < ps[k] then |ps| - 1 else k
  }

  /** The keys of all entries, when each entry is a dict with a number (or no) priority. */
  function NumKeys(entries: Fields): Option<seq<int>> {
    if entries == [] then Some([])
    else
      var ks := NumKeys(entries[..|entries| - 1]);
      var key := PriorityKey(entries[|entries| - 1].1);
      if ks.Some? && key.Some? && key.value.NumKey? then Some(ks.value + [key.value.n]) else None
  }

  /** The numeric keys, when they exist, are one per entry and are the entries' keys. */
  lemma {:induction false} NumKeysShape(entries: Fields)
    requires NumKeys(entries).Some?
    ensures |NumKeys(entries).value| == |entries|
    ensures forall i :: 0 <= i < |entries| ==> PriorityKey(entries[i].1) == Some(NumKey(NumKeys(entries).value[i]))
  {
    if entries != [] {
      NumKeysShape(entries[..|entries| - 1]);
    }
  }

  /** The keys of all entries, when each entry is a dict with a text priority. */
  function StrKeys(entries: Fields): Option<seq<string>> {
    if entries == [] then Some([])
    else
      var ks := StrKeys(entries[..|entries| - 1]);
      var key := PriorityKey(entries[|entries| - 1].1);
      if ks.Some? && key.Some? && key.value.StrKey? then Some(ks.value + [key.value.s]) else None
  }

  /** The text keys, when they exist, are one per entry and are the entries' keys. */
  lemma {:induction false} StrKeysShape(entries: Fields)
    requires StrKeys(entries).Some?
    ensures |StrKeys(entries).value| == |entries|
    ensures forall i :: 0 <= i < |entries| ==> PriorityKey(entries[i].1) == Some(StrKey(StrKeys(entries).value[i]))
  {
    if entries != [] {
      StrKeysShape(entries[..|entries| - 1]);
    }
  }

  /** The type of the scraper the sort puts first. One entry needs only a key; several need keys
      that compare: all numbers, or all texts. Keys of mixed types make the sort raise. */
  function SelectScraperType(entries: Fields): (r: Result<string, FactoryError>)
    ensures r == Err(NoScrapers) <==> entries == []
    ensures r.Ok? ==> exists i :: 0 <= i < |entries| && entries[i].0 == r.value
  {
    if entries == [] then Err(NoScrapers)
    else if |entries| == 1 then
      if PriorityKey(entries[0].1).Some? then Ok(entries[0].0) else Err(BadConfig)
    else match NumKeys(entries)
      case Some(ks) =>
        if |ks| == |entries| then Ok(entries[FirstMinIndex(ks)].0) else Err(BadConfig)
      case None =>
        match StrKeys(entries)
        case None => Err(BadConfig)
        case Some(ks) =>
          if |ks| == |entries| then Ok(entries[FirstMinStrIndex(ks)].0) else Err(BadConfig)
  }

  /** The entry's sort key is a number. */
  predicate HasNumKey(entry: Value) {
    PriorityKey(entry).Some? && PriorityKey(entry).value.NumKey?
  }

  /** Entry k has the lowest priority of all, and every entry before it a strictly higher one. */
  predicate FirstLowest(entries: Fields, k: int) {
    && 0 <= k < |entries|
    && (forall j :: 0 <= j < |entries| ==> HasNumKey(entries[j].1))
    && (forall j :: 0 <= j < |entries| ==> PriorityKey(entries[k].1).value.n <= PriorityKey(entries[j].1).value.n)
    && (forall j :: 0 <= j < k ==> PriorityKey(entries[k].1).value.n < PriorityKey(entries[j].1).value.n)
  }

  /** With several entries the chosen type is the first entry of lowest priority, among numbers
      or among texts. */
  lemma SelectedHasLowestPriority(entries: Fields)
    requires |entries| > 1 && SelectScraperType(entries).Ok?
    ensures (exists k :: FirstLowest(entries, k) && entries[k].0 == SelectScraperType(entries).value)
         || (exists k :: FirstLowestStr(entries, k) && entries[k].0 == SelectScraperType(entries).value)
  {
    if NumKeys(entries).Some? {
      NumKeysShape(entries);
      var ks := NumKeys(entries).value;
      var k := FirstMinIndex(ks);
      assert FirstLowest(entries, k);
    } else {
      StrKeysShape(entries);
      var ks := StrKeys(entries).value;
      FirstMinStrIndexLeast(ks);
      var k := FirstMinStrIndex(ks);
      assert FirstLowestStr(entries, k);
    }
  }

  /** Conversely the type of the first entry of lowest priority is chosen. */
  lemma FirstLowestIsSelected(entries: Fields, k: int)
    requires |entries| > 1 && FirstLowest(entries, k)
    ensures SelectScraperType(entries) == Ok(entries[k].0)
  {
    AllNumKeys(entries);
    NumKeysShape(entries);
    var ks := NumKeys(entries).value;
    var m := FirstMinIndex(ks);
    assert m == k;
  }

  /** Entries whose keys are all numbers have a numeric key list. */
  lemma {:induction false} AllNumKeys(entries: Fields)
    requires forall j :: 0 <= j < |entries| ==> HasNumKey(entries[j].1)
    ensures NumKeys(entries).Some?
  {
    if entries != [] {
      AllNumKeys(entries[..|entries| - 1]);
    }
  }

  /** The entry's sort key is a text. */
  predicate HasStrKey(entry: Value) {
    PriorityKey(entry).Some? && PriorityKey(entry).value.StrKey?
  }

  /** With text priorities, entry k has the least priority in text order, and every entry
      before it a strictly greater one. */
  predicate FirstLowestStr(entries: Fields, k: int) {
    && 0 <= k < |entries|
    && (forall j :: 0 <= j < |entries| ==> HasStrKey(entries[j].1))
    && (forall j :: 0 <= j < |entries| ==> !StrLt(PriorityKey(entries[j].1).value.s, PriorityKey(entries[k].1).value.s))
    && (forall j :: 0 <= j < k ==> StrLt(PriorityKey(entries[k].1).value.s, PriorityKey(entries[j].1).value.s))
  }

  /** Entries whose keys are all texts have a text key list, and no numeric one. */
  lemma {:induction false} AllStrKeys(entries: Fields)
    requires entries != [] && forall j :: 0 <= j < |entries| ==> HasStrKey(entries[j].1)
    ensures StrKeys(entries).Some? && NumKeys(entries).None?
  {
    if |entries| > 1 {
      AllStrKeys(entries[..|entries| - 1]);
    }
  }

  /** With several text priorities the chosen type is the first entry whose priority is least in
      text order. */
  lemma SelectedHasLowestStrPriority(entries: Fields)
    requires |entries| > 1 && (forall j :: 0 <= j < |entries| ==> HasStrKey(entries[j].1))
    ensures SelectScraperType(entries).Ok?
    ensures exists k :: FirstLowestStr(entries, k) && entries[k].0 == SelectScraperType(entries).value
  {
    AllStrKeys(entries);
    StrKeysShape(entries);
    var ks := StrKeys(entries).value;
    FirstMinStrIndexLeast(ks);
    var k := FirstMinStrIndex(ks);
    assert FirstLowestStr(entries, k);
  }

  /** Conversely the type of the first entry of least text priority is chosen. */
  lemma FirstLowestStrIsSelected(entries: Fields, k: int)
    requires |entries| > 1 && FirstLowestStr(entries, k)
    ensures SelectScraperType(entries) == Ok(entries[k].0)
  {
    AllStrKeys(entries);
    StrKeysShape(entries);
    var ks := StrKeys(entries).value;
    FirstMinStrIndexLeast(ks);
    var m := FirstMinStrIndex(ks);
    assert m == k;
  }

  /** Numbers and texts mixed make the sort raise. */
  lemma MixedPrioritiesRaise(entries: Fields, i: int, j: int)
    requires 0 <= i < |entries| && 0 <= j < |entries|
    requires HasNumKey(entries[i].1) && HasStrKey(entries[j].1)
    ensures SelectScraperType(entries) == Err(BadConfig)
  {
    if NumKeys(entries).Some? {
      NumKeysShape(entries);
    }
    if StrKeys(entries).Some? {
      StrKeysShape(entries);
    }
  }

  /** The venue's `scrapers` entry is a dict whose first entry after sorting has type t. */
  predicate ChosenType(venueInfo: Value, t: string) {
    && venueInfo.Object?
    && Lookup(venueInfo.fields, "scrapers").Some?
    && Lookup(venueInfo.fields, "scrapers").value.Object?
    && SelectScraperType(Lookup(venueInfo.fields, "scrapers").value.fields) == Ok(t)
  }

  class Factory {
    /** `ScraperFactory._scrapers`, shared by the whole program. */
    var scrapers: map<string, ScraperKind>

    /** The registry after the module is imported: line 46 registers the Bands in Town scraper
        under the name "bandisintown". */
    constructor ()
      ensures scrapers == map["bandisintown" := BandsInTownKind]
    {
      scrapers := map["bandisintown" := BandsInTownKind];
    }

    /** register: a later registration of the same name replaces the earlier one. */
    method Register(name: string, kind: ScraperKind)
      modifies this
      ensures scrapers == old(scrapers)[name := kind]
    {
      scrapers := scrapers[name := kind];
    }

    /** get_scraper: a new scraper of the registered class, or `UnknownType`. */
    function GetScraper(scraperType: string): (r: Result<ScraperKind, FactoryError>)
      reads this
      ensures r.Ok? <==> scraperType in scrapers
      ensures r.Ok? ==> r.value == scrapers[scraperType]
      ensures r.Err? ==> r.error == UnknownType(scraperType)
    {
      if scraperType !in scrapers then Err(UnknownType(scraperType)) else Ok(scrapers[scraperType])
    }

    /** get_scraper_for_venue: the registered scraper named first after sorting the venue's
        `scrapers` entries by priority. A venue that is not a dict, or whose entries are not
        dicts, raises; a missing or falsy `scrapers` entry is `NoScrapers`. */
    function GetScraperForVenue(venueInfo: Value): (r: Result<ScraperKind, FactoryError>)
      reads this
      ensures !venueInfo.Object? ==> r == Err(BadConfig)
      ensures venueInfo.Object? && !Truthy(Get(venueInfo, "scrapers", Object([])).value) ==> r == Err(NoScrapers)
      ensures r.Ok? ==> venueInfo.Object? && Lookup(venueInfo.fields, "scrapers").Some?
      ensures r.Ok? ==> Lookup(venueInfo.fields, "scrapers").value.Object?
      ensures r.Ok? ==> exists t :: ChosenType(venueInfo, t) && t in scrapers && r.value == scrapers[t]
      ensures forall t :: ChosenType(venueInfo, t) ==> r == (if t in scrapers then Ok(scrapers[t]) else Err(UnknownType(t)))
      ensures (forall t :: !ChosenType(venueInfo, t)) ==> r == Err(NoScrapers) || r == Err(BadConfig)
    {
      match Get(venueInfo, "scrapers", Object([]))
      case None => Err(BadConfig)
      case Some(s) =>
        if !Truthy(s) then Err(NoScrapers)
        else if !s.Object? then Err(BadConfig)
        else match SelectScraperType(s.fields)
          case Err(e) => Err(e)
          case Ok(t) => assert ChosenType(venueInfo, t); GetScraper(t)
    }
  }

  /** The configuration of the factory test: priority 1 for Bands in Town beats priority 2. */
  lemma LowerPriorityNumberWins(f: Factory)
    requires f.scrapers == map["bandisintown" := BandsInTownKind]
    ensures f.GetScraperForVenue(Object([("scrapers", Object([
      ("bandisintown", Object([("priority", Num(1))])),
      ("website", Object([("priority", Num(2))]))]))])) == Ok(BandsInTownKind)
  {
    var entries := [("bandisintown", Object([("priority", Num(1))])), ("website", Object([("priority", Num(2))]))];
    assert PriorityKey(entries[0].1) == Some(NumKey(1));
    assert PriorityKey(entries[1].1) == Some(NumKey(2));
    assert FirstLowest(entries, 0);
    FirstLowestIsSelected(entries, 0);
  }
}
