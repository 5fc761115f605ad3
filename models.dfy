/** data_processing/venue_data/models.py: the artist-event record and the normalisation its
    `__post_init__` applies to what it is given. */
module VenueModels {
  import opened Wrappers
  import opened Strings
  import opened Calendar
  import opened Events

  /** The date the record was given: a `datetime`, or text to be read with `fromisoformat`. */
  datatype DateField = At(d: DateTime) | Text(s: string)

  class ArtistEvent {
    var name: string
    var date: DateField
    var venue: string
    var scraperType: Option<string>

    /** The dataclass's generated `__init__`: the fields as given. */
    constructor (name0: string, date0: DateField, venue0: string, scraperType0: Option<string>)
      ensures name == name0 && date == date0 && venue == venue0 && scraperType == scraperType0
    {
      name := name0;
      date := date0;
      venue := venue0;
      scraperType := scraperType0;
    }

    /** `__post_init__`: strips the name, reads a textual date with `fromisoformat` (raising a
        `ValueError`, `raised`, when it does not parse, before the venue is touched) and strips
        the venue. */
    method PostInit(fromIso: string -> Option<DateTime>) returns (raised: bool)
      modifies this
      ensures name == Strip(old(name)) && Stripped(name)
      ensures scraperType == old(scraperType)
      ensures raised <==> (old(date).Text? && fromIso(old(date).s).None?)
      ensures raised ==> date == old(date) && venue == old(venue)
      ensures !raised ==> date.At? && venue == Strip(old(venue)) && Stripped(venue)
      ensures !raised && old(date).At? ==> date == old(date)
      ensures !raised && old(date).Text? ==> date == At(fromIso(old(date).s).value)
    {
      var strippedName := Strip(name);
      StripIsStripped(name);
      name := strippedName;
      if date.Text? {
        var parsed := fromIso(date.s);
        if parsed.None? {
          return true;
        }
        date := At(parsed.value);
      }
      var strippedVenue := Strip(venue);
      StripIsStripped(venue);
      venue := strippedVenue;
      return false;
    }

    /** The event the record stands for, once its date is a `datetime`. */
    function AsEvent(): Event
      reads this
      requires date.At?
    {
      Event(name, date.d, venue)
    }
  }

  /** The `datetime` a date field stands for once read. */
  function NormalisedDate(date: DateField, fromIso: string -> Option<DateTime>): DateTime
    requires !(date.Text? && fromIso(date.s).None?)
  {
    if date.At? then date.d else fromIso(date.s).value
  }

  /** `ArtistEvent(name, date, venue, scraper_type)`: the record, or `None` for the `ValueError`. */
  method NewArtistEvent(name: string, date: DateField, venue: string, scraperType: Option<string>,
                        fromIso: string -> Option<DateTime>) returns (r: Option<ArtistEvent>)
    ensures r.Some? <==> !(date.Text? && fromIso(date.s).None?)
    ensures r.Some? ==> fresh(r.value) && r.value.date.At? && r.value.scraperType == scraperType
    ensures r.Some? ==> r.value.AsEvent() == Event(Strip(name), NormalisedDate(date, fromIso), Strip(venue))
  {
    var e := new ArtistEvent(name, date, venue, scraperType);
    var raised := e.PostInit(fromIso);
    if raised {
      return None;
    }
    return Some(e);
  }

  /** Normalising an already normalised record changes nothing: its fields are fixed points of
      the stripping `__post_init__` applies. */
  lemma NormalisedIsFixed(e: Event)
    requires Stripped(e.name) && Stripped(e.venue)
    ensures Event(Strip(e.name), e.date, Strip(e.venue)) == e
  {
    StrippedIsFixed(e.name);
    StrippedIsFixed(e.venue);
  }
}
