# venue-playlists, modelled in Dafny

venue-playlists builds Spotify playlists of the artists who are about to play at a city's music
venues. The system has five parts, and this project models the logic of each:

- **Collection.** A venue's page is scraped; Bandsintown pages give JSON-LD `MusicEvent` items.
  Otherwise the page text is chunked by tokens and a language model turns it into
  `artist | date` lines. The events are split into the months of a three-month window, names are
  de-duplicated within each month, and one `artists_<month>.yaml` file is written per month.
  The `collect_events` and `update_all` orchestrators decide which venues run and whether the run
  is forced. The scraper factory picks the scraper with the lowest priority number.
- **Playlists.** There are two generators: the data-processing one, which retries, and the
  older single-attempt one in `scripts`. The data-processing `generate_playlists` reads each
  venue's month, looks up every artist's top tracks, and creates a playlist named after the venue
  and the month. Tracks go in with batches of at most 100. The playlist's URL is chosen by a
  fallback chain and recorded in `playlist_<month>.yaml`. Test runs name playlists `[TEST] ...`,
  stamp the creation time, and unfollow what they created.
- **Read side.** `GET /api/venues` combines the venue configurations and the playlist records.
  It skips malformed entries and `[TEST]` URLs, and maps the errors to 503 and 500. The older
  `api/venues.py` loader and the static `website/data/venues.json` builder are modelled too.
- **Cleanup.** This unfollows test playlists older than a cutoff, using the creation time recorded
  in the description.
- **Front end.** These are the string helpers of the venue page, and the rule that only a card's
  first month is open.

The outside world is modelled as plain data:

- The file tree is a map from path to document (`Store.FileStore`, with a set of directories).
- Spotify is a `Spotify.Client` that logs every request and answers from a scripted reply
  function: request n returns a value or raises.
- The clock, the date parsers, the tokenizer, the language model, the page loader, the scrapers
  and the staleness test `needs_update` are all parameters.

Code that changes state step by step (loops that append, objects whose fields change, the
file store) is written as methods. Each method's `ensures` ties its result and new state to a
specification function, and lemmas prove what the source promises about those functions.

Where the code and its tests disagree, the model follows the code:

- `save_artists_to_file` does not de-duplicate (scripts/venue_data/storage.py:15-18), though
  `test_deduplication` expects it to.
- `_search_single_artist` sends one search with no retry
  (data_processing/spotify_service/artist_search.py:32), though `test_search_with_retries`
  expects a retry. The retries are in `search_artists`.

## Model

| member | source | states |
|---|---|---|
| ApiUtils.Shift | venue_playlists_api/utils.py:19-22 | the date k calendar months on keeps the day of the month and lies exactly k months later |
| ApiUtils.ShiftStep | venue_playlists_api/utils.py:19-22 | one more month moves December to January of the next year and any other month to the next one |
| ApiUtils.GetNextMonths | venue_playlists_api/utils.py:13-27 | the loop's result is the calendar window: num_months consecutive "Month_YYYY" names from today's, or the `ValueError` of a missing day |
| ApiUtils.Advance | venue_playlists_api/utils.py:17-22 | one step of the loop yields the date i months on exactly when that date exists |
| ApiUtils.NextMonthReplaced | venue_playlists_api/utils.py:19-22 | `replace(year=, month=)` on the date i - 1 months on gives the date i months on, or raises when it does not exist |
| ApiUtils.WindowBroken | venue_playlists_api/utils.py:20-22 | a later month without today's day of the month makes the whole call raise |
| ApiUtils.WindowStartsNow | venue_playlists_api/utils.py:14-17 | entry 0 is the current month |
| ApiUtils.WindowConsecutive | venue_playlists_api/utils.py:16-25 | consecutive entries name consecutive calendar months, with no gap and no repeat |
| ApiUtils.WindowEntryAt | venue_playlists_api/utils.py:24 | entry i is the month i months after today, as "Month_YYYY" |
| ApiUtils.EarlyDayWindowExists | venue_playlists_api/utils.py:19-22 | a start on day 28 or earlier never raises, up to year 9999 |
| ApiUtils.JanuaryThirtyFirstRaises | venue_playlists_api/utils.py:22 | a window of two months from 31 January raises: there is no 31 February |
| TextUtils.ChunkMessageCoversTokens | scripts/venue_data/text_utils.py:6-27 | a message of at most 4000 tokens is returned whole; a longer one becomes ceil(n/4000) chunks, each the decoding of 1 to 4000 consecutive tokens, which together are all the tokens in order |
| Seqs.ChunksConcat | scripts/venue_data/text_utils.py:22-25 | the slices `tokens[i:i + 4000]` put back together are the token sequence |
| Seqs.ChunksCount | scripts/venue_data/text_utils.py:22-25 | the number of slices is ceil(n/4000) |
| Seqs.Chunks | scripts/venue_data/text_utils.py:22-25 | every slice is non-empty and at most 4000 long, and all but the last are full |
| TextUtils.GetNextMonths | scripts/venue_data/text_utils.py:29-39 | the loop returns the 30-day window: for each i below num_months, the lower-case "%B_%Y" of today plus 30·i days, or the `OverflowError` past year 9999 |
| TextUtils.MonthKeyHead | scripts/venue_data/text_utils.py:36 | a key starts with the lower-cased first letter of its month's name |
| TextUtils.ThirtyDayWindowFrom2025 | scripts/venue_data/text_utils.py:35-36 | from 1 January 2025 the steps land on 1 January, 31 January and 2 March |
| TextUtils.ThirtyDayWindowSkipsFebruary | scripts/venue_data/text_utils.py:35-36 | from 1 January 2025 the window names January twice and never February |
| TextUtils.MonthWindowConsecutive | scripts/venue_data/text_utils.py:29-39 | the corrected window names n consecutive calendar months from the current one and exists up to year 9999 |
| TextUtils.MonthWindowFromJanuary | scripts/venue_data/text_utils.py:29-39 | from 1 January the corrected window is January, February and March of that year |
| Calendar.AddDaysIsStepwise | scripts/venue_data/text_utils.py:35 | adding days a month at a time agrees with stepping one day at a time, the meaning of `+ timedelta(days=n)` |
| Calendar.DaysInMonth | scripts/venue_data/text_utils.py:35 | every month has 28 to 31 days |
| Calendar.MonthKeyParses | scripts/venue_data/storage.py:14 | every month of a four-digit year prints as a key `strptime(key, "%B_%Y")` reads back, in either letter case |
| Calendar.ShapeParses | scripts/venue_data/storage.py:14 | a month name, an underscore and four digits naming a year of at least 1 parse as `%B_%Y` |
| Calendar.MonthYearPieces | scripts/venue_data/storage.py:14 | a key with a four-digit year splits into its name and its digits at the fifth character from the end |
| VenueStorage.GetVenueOutputDir | scripts/venue_data/storage.py:41-45 | the venue directory `{base_dir}/{venue_key}` is returned and created, and no file changes |
| VenueStorage.SaveArtistsToFile | scripts/venue_data/storage.py:8-30 | the directory is created first; the call succeeds exactly when the month parses as `%B_%Y`, and then overwrites `{venue_dir}/artists_{month}.yaml` with venue, month, the month's names and the time of the call, and nothing else |
| VenueStorage.MonthArtistsMembers | scripts/venue_data/storage.py:15-18 | a name is listed exactly when some event of that name has a `%B_%Y` equal to the month, ignoring case |
| VenueStorage.MonthArtistsAppend | scripts/venue_data/storage.py:15-18 | the filter works event by event and keeps input order, so repeated names survive |
| VenueStorage.MonthArtistsNoDup | scripts/venue_data/storage.py:15-18 | names written once are listed once: a list without repeated names gives a month list without repeated names |
| VenueStorage.VenueConfigOfWrite | scripts/venue_data/storage.py:32-39 | a document written at the configuration path loads back as that document, one that does not parse loads as `{}`, and a write to any other path leaves the loaded configuration as it was |
| VenueStorage.ArtistFilePathInjective | scripts/venue_data/storage.py:11 | two months of one venue are written to two different files |
| VenueStorage.KeyYearSuffix | scripts/venue_data/storage.py:17 | a lower-cased `%B_%Y` of a four-digit year ends in that year |
| VenueStorage.InMonthSameYear | scripts/venue_data/storage.py:17 | an event falls in a key's month only if it has the key's year |
| VenueProcessor.ProcessVenue | scripts/venue_data/venue_processor.py:18-74 | an unknown key, a failed scraper choice or scrape, no events or a window that cannot be computed give `[]` and write nothing; otherwise the files and the result are those of the month loop over the three-month window, and `[]` if a save raised; `force` plays no part |
| VenueProcessor.PartitionByMonth | scripts/venue_data/venue_processor.py:46-70 | the month loop ends in the state of the partition function: one save per busy month, stopping at the first save that raises |
| VenueProcessor.MonthBucketMembers | scripts/venue_data/venue_processor.py:48-52 | an event is in month `m`'s bucket exactly when its lower-cased month name equals the lower-cased text of `m` before the first `_` |
| VenueProcessor.MonthBucketBounded | scripts/venue_data/venue_processor.py:49-52 | the bucket is no longer than the events and holds only events of that month name |
| VenueProcessor.KeyBucket | scripts/venue_data/venue_processor.py:48-52 | a window key places the events of its calendar month of every year in its bucket: the year is not compared |
| VenueProcessor.MonthNamesDistinct | scripts/venue_data/venue_processor.py:51 | different months have different lower-cased names |
| VenueProcessor.MonthNameNoUnderscore | scripts/venue_data/venue_processor.py:48 | a month name has no `_`, so the text before the first `_` of a key is its month name |
| VenueProcessor.PartitionOutputs | scripts/venue_data/venue_processor.py:54-70 | when every key parses, the loop returns one artist file path per month with events, in window order |
| VenueProcessor.PartitionWritesMonth | scripts/venue_data/venue_processor.py:54-65 | the file of every month with events holds that month's deduplicated names, also when the window names the month twice: the repeat rewrites the same record |
| VenueProcessor.PartitionStepWrites | scripts/venue_data/venue_processor.py:54-65 | a month with events writes its artist file from its bucket without repeated names |
| VenueProcessor.PartitionStepKeeps | scripts/venue_data/venue_processor.py:64 | a month's save leaves the artist file of every other month as it was |
| VenueProcessor.PartitionStops | scripts/venue_data/venue_processor.py:64-74 | a save that raises ends the loop: later months change nothing |
| VenueProcessor.PartitionFrozen | scripts/venue_data/venue_processor.py:72-74 | once a save has raised, the remaining months change nothing |
| VenueProcessor.PartitionAppend | scripts/venue_data/venue_processor.py:46-70 | going through two runs of months is going through the first and then the second |
| VenueProcessor.PartitionPrefix | scripts/venue_data/venue_processor.py:46-70 | one more month of the window is one more step of the loop |
| VenueProcessor.PathsOfDistinct | scripts/venue_data/venue_processor.py:54-70 | the returned artist file paths of distinct months are distinct, so no file is listed twice |
| VenueProcessor.WrittenNamesDistinct | scripts/venue_data/venue_processor.py:55-61 | the names written for a month are distinct |
| VenueProcessor.EarlierYearHidesArtist | scripts/venue_data/venue_processor.py:48-61 | the bucket ignores the year but the file keeps only the key's year, so an artist who played the same month of another year earlier in the list is left out of the month's file |
| VenueProcessor.BucketOfTwo | scripts/venue_data/venue_processor.py:48-52 | two events of one month, of any years, both fall in the later one's bucket |
| Events.Dedup | scripts/venue_data/venue_processor.py:55-61 | the `seen`-set loop keeps exactly the events the dedup function keeps |
| Events.DedupNamesPrefix | scripts/venue_data/venue_processor.py:58-61 | one more event is kept exactly when its name has not been seen |
| Events.DedupNamesSound | scripts/venue_data/venue_processor.py:55-61 | the kept events are events of the input with no repeated name, and every name of the input is kept |
| Events.DedupNamesKeepsFirst | scripts/venue_data/venue_processor.py:58-61 | each kept event is the first event of its name in the input |
| Events.DedupNamesSeenSuffix | scripts/venue_data/venue_processor.py:58-61 | events whose names were all seen add nothing |
| Events.DedupNamesIdempotent | scripts/venue_data/venue_processor.py:55-61 | removing repeated names twice is removing them once |
| Events.DedupOfNoDup | scripts/venue_data/venue_processor.py:55-61 | a list without repeated names is kept as it is |
| Events.EventsTwice | scripts/venue_data/venue_processor.py:55-61 | the same events listed twice give what they give once |
| Events.NamesSnoc | scripts/venue_data/venue_processor.py:60 | the names seen after one more event are the earlier ones and its own |
| ScraperFactory.Factory.constructor | scripts/venue_data/scraper_factory.py:11-46 | after import the registry maps "bandisintown" to the Bands in Town scraper and nothing else |
| ScraperFactory.Factory.Register | scripts/venue_data/scraper_factory.py:13-17 | the name is mapped to the class, replacing an earlier registration, and every other entry is unchanged |
| ScraperFactory.Factory.GetScraper | scripts/venue_data/scraper_factory.py:38-43 | a scraper of the registered class exactly when the type is registered, otherwise the unknown-type `ValueError` |
| ScraperFactory.Factory.GetScraperForVenue | scripts/venue_data/scraper_factory.py:19-43 | a missing or empty `scrapers` entry raises `ValueError`; otherwise the result is exactly the registered scraper of the type the priority sort puts first, or the unknown-type `ValueError` when that type is not registered; priorities the sort cannot compare raise |
| ScraperFactory.SelectScraperType | scripts/venue_data/scraper_factory.py:22-35 | an empty `scrapers` entry, and only that, gives the no-scrapers `ValueError`; a chosen type is always one of the configured ones (which one: SelectedHasLowestPriority) |
| ScraperFactory.FirstMinIndex | scripts/venue_data/scraper_factory.py:27-35 | the position a stable sort puts first: a smallest priority, and every earlier entry strictly larger |
| ScraperFactory.SelectedHasLowestPriority | scripts/venue_data/scraper_factory.py:27-35 | with several entries the chosen type is the first entry of lowest priority, either among number priorities (a missing one counting as 999) or among text priorities compared as Python compares texts |
| ScraperFactory.FirstLowestIsSelected | scripts/venue_data/scraper_factory.py:27-35 | conversely the first entry of lowest priority is the one chosen |
| ScraperFactory.SelectedHasLowestStrPriority | scripts/venue_data/scraper_factory.py:27-35 | when every entry has a text priority the sort succeeds and the chosen type is the first entry of the lowest text |
| ScraperFactory.FirstLowestStrIsSelected | scripts/venue_data/scraper_factory.py:27-35 | conversely the first entry of the lowest text priority is the one chosen |
| ScraperFactory.MixedPrioritiesRaise | scripts/venue_data/scraper_factory.py:27-30 | a number priority and a text priority in one configuration make the sort raise `TypeError` |
| ScraperFactory.FirstMinStrIndexLeast | scripts/venue_data/scraper_factory.py:27-35 | the text a stable sort puts first: no text is lower, and every earlier one is strictly higher |
| ScraperFactory.NumKeysShape | scripts/venue_data/scraper_factory.py:29 | the sort keys are each entry's `priority`, or 999 when it has none |
| ScraperFactory.AllNumKeys | scripts/venue_data/scraper_factory.py:29 | entries that all have number keys can be sorted |
| ScraperFactory.LowerPriorityNumberWins | scripts/venue_data/scraper_factory.py:27-36 | priority 1 for Bands in Town beats priority 2 for another scraper |
| BandsInTown.BandsInTownScraper.GetEvents | scripts/venue_data/scrapers/bandisintown.py:85-149 | a configuration without `scrapers.bandisintown.url` raises before any page is loaded; otherwise that URL is loaded and the result is what the script loop gives with the imported record type, which takes no `venue`: the page's exception, or no event at all |
| BandsInTown.BandsInTownScraper.constructor | scripts/venue_data/scrapers/bandisintown.py:23-25 | a new scraper has loaded no page |
| BandsInTown.ItemEvent | scripts/venue_data/scrapers/bandisintown.py:109-125 | an item that is not a dict raises; an event comes only from a dict whose `@type` is exactly "MusicEvent", with a performer name and a `startDate` that parses once every "Z" is "+00:00", carries the venue's `name`, and only when the record type takes a venue |
| BandsInTown.CollectEvents | scripts/venue_data/scrapers/bandisintown.py:101-128 | the script loop yields the page's events for the given record type: list payloads only, scripts in page order and items in list order |
| BandsInTown.CollectItems | scripts/venue_data/scrapers/bandisintown.py:109-125 | the item loop yields the events of one list in order for the given record type, skipping items that fail |
| BandsInTown.ItemsEventsSound | scripts/venue_data/scrapers/bandisintown.py:110-121 | every event found comes from a music-event item of the page, carries the venue's name and has the date read from its `startDate` |
| BandsInTown.MusicEventEmitted | scripts/venue_data/scrapers/bandisintown.py:110-121 | conversely, with a record type that takes a venue, a well-formed `MusicEvent` item gives its event |
| BandsInTown.ItemsEventsAppend | scripts/venue_data/scrapers/bandisintown.py:109-125 | items are read one at a time: two runs of items give the events of each, one after the other, and raise when either raises |
| BandsInTown.ItemsEventsSome | scripts/venue_data/scrapers/bandisintown.py:109-110 | a list goes through exactly when every item is a dict |
| BandsInTown.ItemsEventsAt | scripts/venue_data/scrapers/bandisintown.py:109-125 | a list's events split at any item into the events of the items before it, its own and those of the items after it |
| BandsInTown.ItemsEventsComplete | scripts/venue_data/scrapers/bandisintown.py:109-125 | with a record type that takes a venue, every well-formed `MusicEvent` item of a list that goes through contributes its event, after the events of the items before it and before those after it |
| BandsInTown.NonDictItemRaises | scripts/venue_data/scrapers/bandisintown.py:110-140 | an item that is not a dict makes the whole call raise, since `item.get` runs outside the per-item `try` |
| BandsInTown.ScriptsRaise | scripts/venue_data/scrapers/bandisintown.py:102-140 | a script whose list raises makes the whole page raise |
| BandsInTown.ItemsEventsPrefix | scripts/venue_data/scrapers/bandisintown.py:109-125 | one more item emits its event, is skipped, or raises |
| BandsInTown.ScriptsEventsPrefix | scripts/venue_data/scrapers/bandisintown.py:102-128 | one more script appends the events of its payload |
| BandsInTown.AsWrittenFindsNoEvents | scripts/venue_data/scrapers/bandisintown.py:117-125 | as written, with a record type that takes no `venue`, every event raises a caught `TypeError` and the page yields no event |
| BandsInTown.AsWrittenItemsEmpty | scripts/venue_data/scrapers/bandisintown.py:117-125 | as written, no item of a list yields an event |
| VenueModels.ArtistEvent.constructor | data_processing/venue_data/models.py:5-11 | the dataclass's fields as given, `scraper_type` defaulting to `None` at the call |
| VenueModels.ArtistEvent.PostInit | data_processing/venue_data/models.py:13-26 | the name is stripped; a text date is read with `fromisoformat` and raises `ValueError` when it does not parse, leaving the venue untouched; a `datetime` stays as it is; the venue is then stripped; `scraper_type` is kept |
| VenueModels.NewArtistEvent | data_processing/venue_data/models.py:5-26 | constructing a record succeeds exactly when its date is a `datetime` or parses, and gives the stripped name and venue with the read date |
| VenueModels.NormalisedIsFixed | data_processing/venue_data/models.py:16-26 | normalising already stripped fields changes nothing |
| Strings.StripIdempotent | data_processing/venue_data/models.py:16 | stripping twice is stripping once |
| Strings.StripIsStripped | data_processing/venue_data/models.py:16 | a stripped text neither starts nor ends with white space |
| ArtistExtractor.ParseEvents | data_processing/venue_data/artist_extractor.py:38-66 | the events of the response's lines, in line order |
| ArtistExtractor.ParseLines | data_processing/venue_data/artist_extractor.py:41-64 | the line loop appends each line's event and skips a line that does not read |
| ArtistExtractor.LineEventSound | data_processing/venue_data/artist_extractor.py:42-60 | an event is read only from a line with exactly one vertical bar: its name is the stripped text before it, its date the parsed `%b %d` after it in the current year, and its venue `""` |
| ArtistExtractor.LinesEventsSound | data_processing/venue_data/artist_extractor.py:41-64 | each event comes from one of the response's lines |
| ArtistExtractor.LineEventComplete | data_processing/venue_data/artist_extractor.py:42-60 | conversely a line with one vertical bar, two parts and a `%b %d` date that exists in the current year gives the event of its stripped name, that date and venue `""` |
| ArtistExtractor.LinesEventsAppend | data_processing/venue_data/artist_extractor.py:41-64 | lines are read independently: two runs of lines give the events of each, one after the other |
| ArtistExtractor.LinesEventsAt | data_processing/venue_data/artist_extractor.py:41-64 | the result splits at any line into the events before it, that line's event and those after, so every line that reads as an event is in the result, in line order |
| ArtistExtractor.LinesEventsPrefix | data_processing/venue_data/artist_extractor.py:41-64 | one more line adds that line's event or nothing |
| ArtistExtractor.ProcessChunks | data_processing/venue_data/artist_extractor.py:13-36 | the chunk loop's result is the events of every chunk in chunk order |
| ArtistExtractor.ChunksEventsAppend | data_processing/venue_data/artist_extractor.py:16-34 | chunks are read independently: two runs of chunks give the events of each, one after the other |
| ArtistExtractor.FailedChunkSkipped | data_processing/venue_data/artist_extractor.py:32-34 | a chunk whose call fails contributes nothing and later chunks still run |
| Extractor.ExtractArtistsFromText | scripts/venue_data/extractor.py:14-37 | the line loop's result: the events of the response's lines, or `[]` when the call fails or a line with a vertical bar does not split into exactly two parts |
| Extractor.LinesEventsSnoc | scripts/venue_data/extractor.py:23-33 | one more line is skipped without a vertical bar, raises with other than two parts, is skipped with a bad date, or adds its event |
| Extractor.LinesEventsSound | scripts/venue_data/extractor.py:24-31 | every event was read from a line with one vertical bar: its name is the stripped text before it and its date the `%Y-%m-%d` after it |
| Extractor.LinesEventsAppend | scripts/venue_data/extractor.py:23-33 | lines are read one at a time: two runs of lines give the events of each, one after the other, or fail when either fails |
| Extractor.LinesEventsSome | scripts/venue_data/extractor.py:23-33 | a chunk's lines go through exactly when every line holding a vertical bar splits into two parts |
| Extractor.LinesEventsAt | scripts/venue_data/extractor.py:23-33 | a chunk's result splits at any line into the lines before it, that line and those after it |
| Extractor.LinesEventsComplete | scripts/venue_data/extractor.py:24-31 | in a chunk that goes through, every line an event can be read from contributes that event, after the events of the lines before it and before those after it |
| Extractor.MalformedLineDropsChunk | scripts/venue_data/extractor.py:25-37 | a line with more than one vertical bar raises outside the inner `try` and the whole chunk yields `[]` |
| Extractor.ProcessChunks | scripts/venue_data/extractor.py:39-47 | the chunks' events in chunk order with repeated names removed, keeping first occurrences: no name repeats and every name found is kept |
| VenueMain.ProcessVenue | scripts/venue_data/main.py:6-30 | fetch, clean, chunk and extract run in that order; every month of the window gets a save with the full event list; a failed fetch, a window that cannot be computed or a save that raises propagates, keeping the writes made so far |
| VenueMain.SaveEachMonth | scripts/venue_data/main.py:21-24 | the month loop ends in the state of the save run, stopping at the first save that raises |
| VenueMain.SaveAllOnePerMonth | scripts/venue_data/main.py:21-26 | when every key parses there is exactly one file per month of the window, in window order, even for months without events, and every month's file lists that month's names from the full event list |
| VenueMain.SaveAllMonthFiles | scripts/venue_data/main.py:21-24 | after the run every month of the window has its file, holding that month's names, whatever other months were saved after it |
| VenueMain.SaveAllStops | scripts/venue_data/main.py:23-30 | a save that raises ends the run |
| VenueMain.SaveAllFrozen | scripts/venue_data/main.py:28-30 | once a save has raised the remaining months change nothing |
| VenueMain.SaveAllAppend | scripts/venue_data/main.py:22-24 | two runs of months are saved one after the other |
| VenueMain.SaveAllPrefix | scripts/venue_data/main.py:22-24 | one more month of the window is one more save |
| VenueMain.SaveAllSnoc | scripts/venue_data/main.py:22-24 | saving one more month after a run is one more save step |
| VenueMain.WindowKeysParse | scripts/venue_data/main.py:22-23 | from a four-digit year every key of the thirty-day window parses as `%B_%Y`, so the saves do not raise |
| VenueMain.AddDaysYear | scripts/venue_data/text_utils.py:35 | adding days never moves to an earlier year |
| CollectEvents.ProcessCity | scripts/collect_events.py:35-95 | an unknown `force_venue` or a `test_venues` list that keeps nothing returns without a call and without creating the directory; otherwise `{base}/{city}` is created and the selected venues are processed in map order, each with `force = bool(force_venue or force_all)` |
| CollectEvents.ForceVenueAlone | scripts/collect_events.py:56-60 | a present `force_venue` is the only venue processed, whatever `test_venues` says |
| CollectEvents.TestVenuesOnly | scripts/collect_events.py:61-65 | without `force_venue`, a test list restricts the calls to listed venues of the map |
| CollectEvents.KeepListedMembers | scripts/collect_events.py:62 | an entry is kept exactly when it is in the map and its key is listed |
| CollectEvents.VenueCallsMembers | scripts/collect_events.py:73-91 | a venue is processed exactly when it is selected with a dict entry, and every call carries the same flag and the city's directory |
| CollectEvents.FailingVenueIsolated | scripts/collect_events.py:89-91 | a venue whose processing raises does not stop the rest: the calls around it are the calls without it |
| CollectEvents.VenueCallsSnoc | scripts/collect_events.py:73-80 | one more selected venue adds its call when its entry is a dict |
| CollectEvents.KeysHave | scripts/collect_events.py:62 | the key of an entry is among the map's keys |
| UpdateAll.UpdateAll | scripts/update_all.py:26-69 | a `force_venue` not in the map returns without a call and without creating the directory; otherwise `{base}/{city}` is created and one call per selected key is made in map order, each with `force = bool(force_venue or force_all)` |
| UpdateAll.UpdateAllCalls | scripts/update_all.py:40-58 | without `force_venue` every venue is processed once, in map order, with `force_all`; a present `force_venue` is processed alone with `force` set |
| ArtistSearch.SearchSingleArtist | data_processing/spotify_service/artist_search.py:23-43 | one search request, with no retry inside, answered as the reply says |
| ArtistSearch.NoItemsNone | data_processing/spotify_service/artist_search.py:33-35 | no search items give `None` |
| ArtistSearch.FoundIsMatchingTopHit | data_processing/spotify_service/artist_search.py:37-43 | an id comes only from the top hit, whose name equals the query ignoring case |
| ArtistSearch.MatchingTopHitFound | data_processing/spotify_service/artist_search.py:37-43 | conversely a top hit whose name equals the query ignoring case, and that has an id, gives that id |
| ArtistSearch.MismatchRejected | data_processing/spotify_service/artist_search.py:39-41 | a top hit with another name, ignoring case, gives `None` |
| ArtistSearch.SingleArtistIgnoresCase | data_processing/spotify_service/artist_search.py:39 | queries equal when lower-cased get the same answer |
| ArtistSearch.SearchWithRetries | data_processing/spotify_service/artist_search.py:56-67 | the attempts for one name follow the retry loop: the first attempt that does not raise, or none after `max_retries` |
| ArtistSearch.SearchStep | data_processing/spotify_service/artist_search.py:55-67 | one name's turn stores its answer, or `None` when every attempt raised |
| ArtistSearch.SearchArtists | data_processing/spotify_service/artist_search.py:45-68 | the dict and the requests are those of one retry loop per name, in name order, with `None` as the fallback |
| ArtistSearch.SearchKeys | data_processing/spotify_service/artist_search.py:54-68 | every name listed, and no other, gets an entry when at least one attempt is allowed |
| ArtistSearch.SearchFoundMatches | data_processing/spotify_service/artist_search.py:58 | a stored id is the answer of a search reply for the name it is stored under |
| ArtistSearch.SearchRequestBound | data_processing/spotify_service/artist_search.py:56-58 | at most `max_retries` search requests per name |
| ArtistSearch.TrackIdsSound | data_processing/spotify_service/artist_search.py:85 | the ids come one per track in track order, and only when every track has one |
| ArtistSearch.TracksInReplyOrder | data_processing/spotify_service/artist_search.py:84-85 | a reply whose tracks all carry ids gives those ids in the listed order |
| ArtistSearch.FetchTopTracks | data_processing/spotify_service/artist_search.py:84-85 | one top-tracks request for the id and market, and the id list built from the reply |
| ArtistSearch.TracksWithRetries | data_processing/spotify_service/artist_search.py:82-94 | the attempts for one id follow the retry loop |
| ArtistSearch.TopTracksStep | data_processing/spotify_service/artist_search.py:81-94 | one id's turn stores its track ids, or `[]` when every attempt raised |
| ArtistSearch.GetTopTracks | data_processing/spotify_service/artist_search.py:70-95 | the dict and the requests are those of one retry loop per id, in id order, with `[]` as the fallback |
| ArtistSearch.TopTracksEntries | data_processing/spotify_service/artist_search.py:80-95 | every id listed gets an entry, which is `[]` or the ids of a top-tracks reply |
| Spotify.Client.Send | data_processing/spotify_service/artist_search.py:32-33 | one request is logged and gets the service's reply for its position |
| Spotify.Client.constructor | data_processing/spotify_service/artist_search.py:11-21 | a client that has sent nothing |
| Spotify.RetryFirstSuccess | data_processing/spotify_service/artist_search.py:56-67 | the retry loop returns the first attempt that does not raise, after exactly the attempts up to it |
| Spotify.RetryExhausted | data_processing/spotify_service/artist_search.py:61-64 | when all attempts raise the loop gives up after exactly `max_retries` of them |
| Spotify.RetryHasFirstSuccess | data_processing/spotify_service/artist_search.py:57-60 | a result comes only from the first attempt that did not raise |
| Spotify.ResumesAtStart | data_processing/spotify_service/artist_search.py:56 | before the first attempt the whole loop is still to run |
| Spotify.ResumeAfterRaise | data_processing/spotify_service/artist_search.py:61-67 | an attempt that raised lets the loop go on with one attempt fewer |
| Spotify.ResumeReturned | data_processing/spotify_service/artist_search.py:57-60 | an attempt that did not raise ends the loop with its value |
| Spotify.ResumeExhausted | data_processing/spotify_service/artist_search.py:56-64 | with no attempt left the loop has given up |
| Spotify.RetrySentBound | data_processing/spotify_service/artist_search.py:56 | n attempts of at most m requests each send at most m·n requests |
| Spotify.RetrySendsOnly | data_processing/spotify_service/artist_search.py:56-67 | the loop sends nothing its attempts would not |
| Spotify.RetryReturnsOnly | data_processing/spotify_service/artist_search.py:56-67 | the loop returns nothing its attempts would not |
| Spotify.CollectStepOf | data_processing/spotify_service/artist_search.py:55-67 | one key's step is the dict its retry loop leaves: its value, the fallback after attempts that all raised, or nothing when no attempt runs |
| Spotify.RetryAllSnoc | data_processing/spotify_service/artist_search.py:55-67 | one more key is one more retry loop |
| Spotify.RetryAllKeys | data_processing/spotify_service/artist_search.py:54-68 | a key is set exactly for every key listed, unless no attempt is allowed |
| Spotify.RetryAllValues | data_processing/spotify_service/artist_search.py:58-64 | a stored value is what some attempt for that key returned, or the fallback |
| Spotify.RetryAllSentBound | data_processing/spotify_service/artist_search.py:55-56 | at most m·`max_retries` requests per key when an attempt sends at most m |
| PlaylistGenerator.PlaylistGenerator.constructor | data_processing/playlist_data/generator.py:15-18 | a new generator has no name prefix and no creation stamp |
| PlaylistGenerator.PlaylistGenerator.Connect | data_processing/playlist_data/generator.py:39-49 | one `me` request; the generator exists exactly when that request returned and, when the reply is truthy, `'display_name' in user` can be evaluated and, when it holds, `user['display_name']` can be read; a dict without a `display_name` is only reported |
| PlaylistGenerator.AuthenticatedReplies | data_processing/playlist_data/generator.py:41-49 | a non-zero number or `True` as the user raises at `in`, a text or a list holding "display_name" raises at the lookup, a falsy reply, another text or list, or any dict is accepted, a raising request is not |
| PlaylistGenerator.PlaylistGenerator.SearchAttempt | data_processing/playlist_data/generator.py:54-69 | one attempt sends the search and, when it leads to an artist id, the top-tracks request, as the replies decide |
| PlaylistGenerator.PlaylistGenerator.RetryAttempts | data_processing/playlist_data/generator.py:53-76 | the attempts follow the retry loop: the first result of an attempt that did not raise, else `[]` |
| PlaylistGenerator.PlaylistGenerator.SearchArtistTopTracks | data_processing/playlist_data/generator.py:51-76 | the URIs and the requests are those of the retry loop over search-then-top-tracks attempts |
| PlaylistGenerator.AttemptSendsAtMostTwo | data_processing/playlist_data/generator.py:55-60 | an attempt sends the search and at most one more request |
| PlaylistGenerator.TrackSearchBound | data_processing/playlist_data/generator.py:53-60 | at most two requests per allowed attempt |
| PlaylistGenerator.TrackSearchTruncated | data_processing/playlist_data/generator.py:65-69 | at most `TRACKS_PER_ARTIST` URIs come back |
| PlaylistGenerator.SearchThenTracksTruncated | data_processing/playlist_data/generator.py:65-69 | one attempt that returns gives at most `TRACKS_PER_ARTIST` URIs |
| PlaylistGenerator.TopUrisTruncated | data_processing/playlist_data/generator.py:62-69 | the URIs of a top-tracks reply are at most as many as the slice keeps |
| PlaylistGenerator.TrackSearchRequests | data_processing/playlist_data/generator.py:55-60 | a track search sends only searches and top-tracks requests |
| PlaylistGenerator.NoArtistNoRetry | data_processing/playlist_data/generator.py:56-57 | a search without items gives `[]` after that one search, with no retry |
| PlaylistGenerator.UrisOfSnoc | data_processing/playlist_data/generator.py:65-69 | one more track adds its URI at the end, exactly when it has a `uri` |
| PlaylistGenerator.UrisOfObjects | data_processing/playlist_data/generator.py:65-69 | for dict tracks the comprehension returns, and a URI is in it exactly when some track carries it |
| PlaylistGenerator.UrisOfLength | data_processing/playlist_data/generator.py:65-69 | no more URIs than tracks |
| PlaylistGenerator.AddInBatches | data_processing/playlist_data/generator.py:104-107 | the add calls and their outcome are those of the batch loop over 100-track chunks |
| PlaylistGenerator.AddBatchesAll | data_processing/playlist_data/generator.py:105-107 | when every add call returns there is one call per batch, the batches in order |
| PlaylistGenerator.AddBatchesRequests | data_processing/playlist_data/generator.py:107 | the batch loop sends only add calls |
| PlaylistGenerator.BatchesCoverTracks | data_processing/playlist_data/generator.py:105-106 | the batches concatenate back to the track list and none is empty or over 100 |
| PlaylistGenerator.PlaylistGenerator.CreateVenuePlaylist | data_processing/playlist_data/generator.py:78-123 | the URL and the requests are those of me, create, the batches and the URL choice, with `""` for any exception |
| PlaylistGenerator.PlaylistGenerator.AddAndLink | data_processing/playlist_data/generator.py:101-117 | after the creation: the batches when there are tracks and an id, then the URL |
| PlaylistGenerator.CreateFlowCreates | data_processing/playlist_data/generator.py:81-99 | a creation request carries the formatted name and description |
| PlaylistGenerator.CreateRequests | data_processing/playlist_data/generator.py:91-99 | the requests start with me and the creation for the user's id |
| PlaylistGenerator.NoTracksNoBatches | data_processing/playlist_data/generator.py:104 | without tracks no add call is sent, two requests at most |
| PlaylistGenerator.UrlPrefersSpotifyLink | data_processing/playlist_data/generator.py:110-111 | the `external_urls.spotify` link is preferred |
| PlaylistGenerator.UrlFallsBackToHref | data_processing/playlist_data/generator.py:112-113 | without it, `href` |
| PlaylistGenerator.UrlFromId | data_processing/playlist_data/generator.py:114-115 | without both, the open.spotify.com URL of the id |
| PlaylistGenerator.NoUrlGivesEmpty | data_processing/playlist_data/generator.py:116-123 | with none of the three the call returns the empty text |
| PlaylistGenerator.DescriptionStamp | data_processing/playlist_data/generator.py:82-86 | with a stamp the description is the plain one followed by ` (Created: <stamp>)` |
| ScriptsGenerator.ScriptsGenerator.Connect | scripts/playlist_data/generator.py:7-29 | without a refresh token it raises before any request; otherwise one `me` request, and the generator exists exactly when that returned a user with a `display_name` |
| ScriptsGenerator.ScriptsGenerator.constructor | scripts/playlist_data/generator.py:18 | the generator talks to the given client |
| ScriptsGenerator.ScriptsGenerator.SearchArtistTopTracks | scripts/playlist_data/generator.py:31-47 | the URIs and requests of one attempt with no retry, `[]` on any exception |
| ScriptsGenerator.SingleSearchBounds | scripts/playlist_data/generator.py:34-44 | at most `TRACKS_PER_ARTIST` URIs and one or two requests, the first being the search |
| ScriptsGenerator.EveryUriSound | scripts/playlist_data/generator.py:41-44 | the comprehension returns exactly when every track has a `uri`, and then gives those URIs in track order |
| ScriptsGenerator.EveryUriAgreesWithFilter | scripts/playlist_data/generator.py:41-44 | where every track has a `uri` the unfiltered comprehension agrees with the data-processing generator's filtered one |
| ScriptsGenerator.ScriptsGenerator.CreateVenuePlaylist | scripts/playlist_data/generator.py:49-77 | the flow of `me`, create, batches and URL under the unprefixed name and the plain description |
| ScriptsGenerator.ScriptsGenerator.CreateOnceNamed | scripts/playlist_data/generator.py:51-57 | `me`, then the creation under the given name and description, then the rest of the flow |
| ScriptsGenerator.ScriptsGenerator.AddAndLinkOnce | scripts/playlist_data/generator.py:59-71 | after the creation: the batches when there are tracks, then the URL |
| ScriptsGenerator.CreateOnceRequests | scripts/playlist_data/generator.py:53-57 | the requests start with `me` and the creation for the user's id |
| ScriptsGenerator.CreateOnceNoTracks | scripts/playlist_data/generator.py:59 | with no tracks no add call is sent |
| ScriptsGenerator.AfterCreateAddsAll | scripts/playlist_data/generator.py:59-62 | when every add call returns, the requests after the creation are the 100-track batches in order |
| ScriptsGenerator.AfterCreateFailedAdd | scripts/playlist_data/generator.py:62-77 | an add call that raises makes the call return `""` |
| ScriptsGenerator.LinkAgrees | scripts/playlist_data/generator.py:65-71 | the URL chain picks the same URL, or fails, exactly as the data-processing generator's |
| GeneratePlaylists.LoadArtists | data_processing/generate_playlists.py:42-64 | the file's `artists` entry; `[]` for a missing file, a file that does not load or a document without the entry |
| GeneratePlaylists.LoadSavedArtists | data_processing/generate_playlists.py:53-61 | what the collector writes for a venue's month reads back as that month's artist names |
| GeneratePlaylists.SearchArtists | data_processing/generate_playlists.py:121-127 | the tracks and requests are those of one search per artist, the tracks extended in artist order |
| GeneratePlaylists.SearchOne | data_processing/generate_playlists.py:123 | one search_artist_top_tracks call with the generator's retries |
| GeneratePlaylists.ArtistTracksSnoc | data_processing/generate_playlists.py:122-126 | one more artist is one more search after the requests of the ones before |
| GeneratePlaylists.ArtistTracksSent | data_processing/generate_playlists.py:122-123 | a bound on each search's requests bounds the loop's by that many per artist |
| GeneratePlaylists.ArtistTracksFound | data_processing/generate_playlists.py:122-126 | a bound on each search's tracks bounds the loop's by that many per artist |
| GeneratePlaylists.ArtistTracksSendsOnly | data_processing/generate_playlists.py:122-123 | the loop sends only requests some search sends |
| GeneratePlaylists.TrackSearcherSends | data_processing/generate_playlists.py:123 | one search sends at most two requests per retry, only searches and top-tracks requests |
| GeneratePlaylists.TrackSearcherFinds | data_processing/generate_playlists.py:123 | one search keeps at most `TRACKS_PER_ARTIST` URIs |
| GeneratePlaylists.ArtistTracksBounds | data_processing/generate_playlists.py:121-127 | the artist loop's request, request-kind and track bounds together |
| GeneratePlaylists.PublishPlaylist | data_processing/generate_playlists.py:129-140 | the creation; with a URL, the record saved at the venue's month and the id appended when tracked |
| GeneratePlaylists.PublishEffects | data_processing/generate_playlists.py:129-140 | publishing only adds requests, and changes the files only by a saved record with a URL |
| GeneratePlaylists.IdOfPlaylistLink | data_processing/generate_playlists.py:136 | the id recorded for a URL built from a playlist id is that id |
| GeneratePlaylists.ProcessVenueMonth | data_processing/generate_playlists.py:107-142 | one venue in one month: the filter, the staleness skip, the artist file, the searches and the publish, in the source's order |
| GeneratePlaylists.VenueMonthEffects | data_processing/generate_playlists.py:115-142 | a venue's month only adds requests; the files change only by a saved record when tracks were found, and with none there is no creation |
| GeneratePlaylists.ForcedVenueMonth | data_processing/generate_playlists.py:111 | a forced venue's month does not depend on the staleness test |
| GeneratePlaylists.ProcessCityPlaylists | data_processing/generate_playlists.py:66-145 | a city's effect is the month loop over its selected venues, with a venue map that is not a dict ending the city |
| GeneratePlaylists.CityLoops | data_processing/generate_playlists.py:103-106 | the month loop around the venue loop, in order, stopping at the first exception |
| GeneratePlaylists.VenueVia | data_processing/generate_playlists.py:106-142 | the venue step is ProcessVenueMonth |
| GeneratePlaylists.VenuesPassAbortedRest | data_processing/generate_playlists.py:106-145 | after an exception no later venue of the city runs |
| GeneratePlaylists.VenuesPassFromAborted | data_processing/generate_playlists.py:144-145 | a venue loop started after an exception does nothing |
| GeneratePlaylists.MonthsPassAbortedRest | data_processing/generate_playlists.py:103-145 | after an exception no later month runs |
| GeneratePlaylists.WithKey | data_processing/generate_playlists.py:107 | the entries under one key are exactly those of the map with that key |
| GeneratePlaylists.VenuesPassOneKey | data_processing/generate_playlists.py:107-108 | a venue loop whose step passes over other keys is the loop over that key's entries |
| GeneratePlaylists.MonthsPassOneKey | data_processing/generate_playlists.py:103-108 | the same for the month loop |
| GeneratePlaylists.ForcedVenueOnly | data_processing/generate_playlists.py:107-108 | with `force_venue`, a city runs exactly that venue's entries |
| GeneratePlaylists.VenuesPassAgree | data_processing/generate_playlists.py:106 | venue loops with the same step agree |
| GeneratePlaylists.MonthsPassAgree | data_processing/generate_playlists.py:103 | month loops with the same step agree |
| GeneratePlaylists.ForcedIgnoresStaleness | data_processing/generate_playlists.py:111 | a forced run's outcome is the same whatever needs_update says |
| GeneratePlaylists.CityNames | data_processing/generate_playlists.py:175 | the cities are exactly the entries of the data directory that are directories |
| GeneratePlaylists.GeneratePlaylists | data_processing/generate_playlists.py:147-196 | a connection whose `me` request raises, or returns a truthy reply that `in` cannot search or that passes `in` but cannot be indexed by "display_name", sends only `me` and writes nothing; otherwise every city runs in order, one city's exception not stopping the next, then the cleanup unfollows the created ids in test mode unless preserved |
| GeneratePlaylists.CitiesLoop | data_processing/generate_playlists.py:176-184 | the city loop, every city run from where the one before left the state |
| GeneratePlaylists.CityVia | data_processing/generate_playlists.py:177-184 | one city is ProcessCityPlaylists with no `force_venue` and the ids tracked |
| GeneratePlaylists.UnfollowAll | data_processing/generate_playlists.py:190-192 | one unfollow per created id, in order, whatever each returns |
| GeneratePlaylists.TestNameRecognised | data_processing/generate_playlists.py:171 | a test-mode name starts with the prefix the cleanup recognises |
| GeneratePlaylists.PublishTestNamed | data_processing/generate_playlists.py:129-137 | in test mode a publish creates only test-named playlists |
| GeneratePlaylists.VenueMonthTestNamed | data_processing/generate_playlists.py:106-142 | in test mode a venue's month creates only test-named playlists |
| GeneratePlaylists.VenuesPassKeeps | data_processing/generate_playlists.py:106 | a venue loop keeps any property of the state its step keeps |
| GeneratePlaylists.MonthsPassKeeps | data_processing/generate_playlists.py:103 | a month loop keeps any property of the state its step keeps |
| GeneratePlaylists.CitiesPassKeeps | data_processing/generate_playlists.py:176 | a city loop keeps any property of the state each city keeps |
| GeneratePlaylists.TestRunTestNamed | data_processing/generate_playlists.py:169-184 | in test mode every playlist the run creates is named so the cleanup finds it |
| ScriptsGeneratePlaylists.LoadArtists | scripts/generate_playlists.py:9-17 | `[]` for a missing file, else the `artists` entry or `[]`; a file that does not parse or is not a dict raises, since nothing is caught |
| ScriptsGeneratePlaylists.LoadSavedArtists | scripts/generate_playlists.py:11-17 | what the collector writes for a venue's month reads back as that month's artist names |
| ScriptsGeneratePlaylists.SearchArtists | scripts/generate_playlists.py:35-39 | the tracks and requests are those of one single-attempt search per artist, in artist order |
| ScriptsGeneratePlaylists.SearchOne | scripts/generate_playlists.py:37 | one search_artist_top_tracks call |
| ScriptsGeneratePlaylists.SearcherBounds | scripts/generate_playlists.py:37 | one search sends one or two requests and keeps at most `TRACKS_PER_ARTIST` tracks |
| ScriptsGeneratePlaylists.ArtistTracksBounds | scripts/generate_playlists.py:35-39 | the artist loop: at most two requests and `TRACKS_PER_ARTIST` tracks per artist, only searches and top-tracks requests |
| ScriptsGeneratePlaylists.ProcessVenueMonth | scripts/generate_playlists.py:31-46 | one venue key in one month: the artist file, the searches, and the playlist named after the key, saved when a URL came back |
| ScriptsGeneratePlaylists.VenueVia | scripts/generate_playlists.py:30-46 | the key step is ProcessVenueMonth |
| ScriptsGeneratePlaylists.CreateOnceCreates | scripts/generate_playlists.py:42 | every creation request carries the call's name and description |
| ScriptsGeneratePlaylists.VenueMonthRequests | scripts/generate_playlists.py:31-46 | a venue's month only adds requests, creates only under the venue key's name with no stamp, and creates nothing without tracks |
| ScriptsGeneratePlaylists.PublishGrows | scripts/generate_playlists.py:41-46 | after the searches the publish only adds requests |
| ScriptsGeneratePlaylists.VenueMonthFiles | scripts/generate_playlists.py:41-44 | a venue's month changes the files only by a saved record with a URL, and only when tracks were found |
| ScriptsGeneratePlaylists.PublishEffects | scripts/generate_playlists.py:42-44 | a publish only adds requests, creates under the key's name, and changes the files only by the saved record |
| ScriptsGeneratePlaylists.ProcessCityPlaylists | scripts/generate_playlists.py:19-46 | a city: the venue configuration, then the generator's connection, then the month loop over the keys, the first exception ending the run |
| ScriptsGeneratePlaylists.CityLoops | scripts/generate_playlists.py:26-30 | the month loop around the key loop, stopping at the first exception |
| ScriptsGeneratePlaylists.KeysPassCrashedRest | scripts/generate_playlists.py:30 | after an exception no later key runs |
| ScriptsGeneratePlaylists.KeysPassFromCrashed | scripts/generate_playlists.py:30 | a key loop started after an exception does nothing |
| ScriptsGeneratePlaylists.MonthsPassCrashedRest | scripts/generate_playlists.py:26 | after an exception no later month runs |
| ScriptsGeneratePlaylists.CityVia | scripts/generate_playlists.py:51 | the city step is ProcessCityPlaylists |
| ScriptsGeneratePlaylists.CitiesPassPrefix | scripts/generate_playlists.py:50-51 | one more city is one more step unless the run has crashed |
| ScriptsGeneratePlaylists.CitiesPassCrashedRest | scripts/generate_playlists.py:50-51 | after an exception no later city runs |
| ScriptsGeneratePlaylists.GeneratePlaylists | scripts/generate_playlists.py:48-51 | every directory under the data directory runs in listing order until the first exception, which ends the run |
| PlaylistStorage.SavePlaylistInfo | data_processing/playlist_data/storage.py:5-19 | the venue's directory exists and the record of venue, month, URL and time is written at `playlist_<month>.yaml`, replacing any earlier one, and nothing else changes |
| Store.FileStore.constructor | data_processing/playlist_data/storage.py:7-8 | the store holds the given files and directories |
| Store.FileStore.MakeDirs | data_processing/playlist_data/storage.py:17 | the directory and every ancestor it names are added, and no file changes |
| Store.FileStore.MakeDir | scripts/build_website_data.py:21 | the one directory is added, and no file changes |
| Store.DirChainAncestors | scripts/venue_data/storage.py:44 | the directories `os.makedirs` leaves are exactly the path and its prefixes that end right before a `/` |
| Store.FileStore.Write | data_processing/playlist_data/storage.py:18-19 | the file holds the new document and nothing else changes |
| VenuesApi.VenueData | venue_playlists_api/venues.py:49-90 | a venue is emitted exactly when its entry is a dict with a `name` and the month window did not raise |
| VenuesApi.LoadMonths | venue_playlists_api/venues.py:66-83 | the month loop builds the months map of MonthsOf |
| VenuesApi.MonthsOfLookup | venue_playlists_api/venues.py:67-83 | a month of the window is present exactly when its playlist file shows a URL, and then holds that URL; no other month appears |
| VenuesApi.MonthsOfInOrder | venue_playlists_api/venues.py:67-78 | over a window without repeats the months appear in window order |
| VenuesApi.ShownMonths | venue_playlists_api/venues.py:67-70 | the shown months all come from the window |
| VenuesApi.SavedRecordShown | venue_playlists_api/venues.py:73-80 | a record save_playlist_info wrote is shown exactly when its URL does not contain `[TEST]` |
| VenuesApi.LoadCity | venue_playlists_api/venues.py:49-90 | the venue loop builds the venues of CityVenues |
| VenuesApi.CityVenuesKeys | venue_playlists_api/venues.py:49-90 | a venue key is emitted exactly when it was already there or some entry under it is well formed: a bad entry is skipped and its siblings kept |
| VenuesApi.CityVenuesValues | venue_playlists_api/venues.py:59-86 | every emitted value is the output entry of one of the city's entries under that key |
| VenuesApi.LoadVenues | venue_playlists_api/venues.py:12-104 | the loop over the listing gives LoadOutcome: a missing base directory, a YAML error re-raised as `ValueError`, or the output with `last_updated` |
| VenuesApi.AllCitiesStaysFailed | venue_playlists_api/venues.py:92-99 | once a `ValueError` has escaped no later city changes that |
| VenuesApi.AllCitiesFails | venue_playlists_api/venues.py:30-102 | the city loop fails exactly when some city directory holds a `venues.yaml` that does not parse; every other per-city error is skipped |
| VenuesApi.GetVenuesStatus | venue_playlists_api/venues.py:106-119 | the route answers 503 exactly for a missing base directory, 500 exactly for a base path that is not a directory or an unparsable city file, and 200 with the output otherwise |
| VenuesApi.CityVenuesNoWindow | venue_playlists_api/venues.py:67-90 | when the month window raises the venue loop adds no venue |
| VenuesApi.AllCitiesNoWindow | venue_playlists_api/venues.py:30-90 | when the month window raises no city adds a venue |
| VenuesApi.NoWindowNoVenues | venue_playlists_api/venues.py:67-90 | on a day whose month window raises, the route answers 200 with no venue at all, unless the base directory is missing or a city file does not parse |
| VenuesApi.LowerCaseSaveNotRead | venue_playlists_api/venues.py:67-68 | a record saved under a month's lower-cased key is at another path than the one the route reads for that month, and does not change what the route shows |
| LegacyApi.LegacyVenue | api/venues.py:25-30 | an entry gives an output only when it is a dict with a `name`; otherwise the load raises |
| LegacyApi.LoadCity | api/venues.py:25-33 | the venue loop of one city, failing at the first malformed entry |
| LegacyApi.LoadVenues | api/venues.py:7-35 | the loop over the listing: cities' venues with empty months, failing as soon as a file is missing, does not parse or has a malformed entry |
| LegacyApi.LegacyCityStaysFailed | api/venues.py:25-30 | once an entry raised the city's loop stays failed |
| LegacyApi.LegacyCitiesStaysFailed | api/venues.py:17-33 | once a city raised the load stays failed |
| LegacyApi.LegacyCityLoads | api/venues.py:25-30 | a city loads exactly when every entry is a dict with a `name` |
| LegacyApi.LegacyCityKeys | api/venues.py:25-33 | a loaded city emits every one of its venue keys and keeps the earlier ones |
| LegacyApi.LegacyCityShaped | api/venues.py:26-30 | every emitted venue has a name, a description and empty months |
| LegacyApi.SameKeysAsApi | api/venues.py:7-35 | where the older loader succeeds the newer one also loads, with the same venue keys |
| LegacyApi.CitiesAgree | api/venues.py:17-33 | the two city loops agree on keys while the older one succeeds |
| LegacyApi.CityAgrees | api/venues.py:25-33 | the two venue loops of a city agree on keys when the older one succeeds |
| WebsiteData.BuildCity | scripts/build_website_data.py:31-59 | the venue loop of one city builds SiteCity, failing at the first malformed entry |
| WebsiteData.BuildWebsiteData | scripts/build_website_data.py:12-67 | the website directory is made when its parent exists; the file is written with the built venues and an empty `last_updated` exactly when every city builds, and any exception leaves the files as they were |
| WebsiteData.SiteCityStaysFailed | scripts/build_website_data.py:31-34 | once an entry raised the city's loop stays failed |
| WebsiteData.SiteCitiesStaysFailed | scripts/build_website_data.py:24-31 | once a city raised the build stays failed |
| WebsiteData.SiteCityLoads | scripts/build_website_data.py:31-34 | a city builds exactly when every entry is a dict with a `name` |
| WebsiteData.SiteCityKeys | scripts/build_website_data.py:58-59 | a built city emits exactly its venues with at least one shown month, keeping the earlier ones |
| WebsiteData.SiteCityShown | scripts/build_website_data.py:32-59 | every emitted venue has a name and the non-empty months its playlist files show |
| PlaylistCleanup.PlaylistCleaner.constructor | scripts/venue_data/playlist_cleanup.py:13-15 | the cleaner uses the given client |
| PlaylistCleanup.PlaylistCleaner.CleanupSpecificPlaylist | scripts/venue_data/playlist_cleanup.py:40-48 | exactly one unfollow request for the id, and true exactly when it returned |
| PlaylistCleanup.PlaylistCleaner.CleanupTestPlaylists | scripts/venue_data/playlist_cleanup.py:17-38 | the requests and result are those of the first page and the loop, with the cutoff `older_than_hours` before now and the creation time parsed from the stamp text as written |
| PlaylistCleanup.PlaylistCleaner.SweepPage | scripts/venue_data/playlist_cleanup.py:23-25 | the first page of the user's playlists, then the loop over its items |
| PlaylistCleanup.PlaylistCleaner.Sweep | scripts/venue_data/playlist_cleanup.py:25-36 | the loop over the playlists: an expired one (by the as-written creation time) is unfollowed and its id recorded when that returned; a failing unfollow is skipped |
| PlaylistCleanup.CleanAllStaysRaised | scripts/venue_data/playlist_cleanup.py:25-27 | once the loop raised the later playlists change nothing |
| PlaylistCleanup.CleanAllRequests | scripts/venue_data/playlist_cleanup.py:27-32 | every request of the loop unfollows an expired playlist of the page |
| PlaylistCleanup.CleanAllRecorded | scripts/venue_data/playlist_cleanup.py:31-33 | every recorded id had its unfollow sent, and that request returned |
| PlaylistCleanup.KeptPlaylists | scripts/venue_data/playlist_cleanup.py:27-30 | a playlist whose id no expired playlist shares is never unfollowed |
| PlaylistCleanup.OnlyTestPlaylistsExpire | scripts/venue_data/playlist_cleanup.py:27-30 | an expired playlist is named `[TEST]...` and has a parsed creation time before the cutoff |
| PlaylistCleanup.LongerAgeExpiresLess | scripts/venue_data/playlist_cleanup.py:20-30 | a playlist expired for a longer age is expired for a shorter one |
| PlaylistCleanup.MarkerText | scripts/venue_data/playlist_cleanup.py:54-55 | the split's second piece exists exactly when the description contains `Created:` |
| PlaylistCleanup.MarkerTextAfter | scripts/venue_data/playlist_cleanup.py:55 | after a colon-free prefix the piece is everything behind the marker |
| PlaylistCleanup.MarkerTextOfDescription | scripts/venue_data/playlist_cleanup.py:55 | for a generated description the piece is the stamp with its closing parenthesis |
| PlaylistCleanup.FirstMarkerAt | scripts/venue_data/playlist_cleanup.py:55 | after a colon-free prefix the first marker is where the rest starts |
| PlaylistCleanup.NoMarkerWithoutC | scripts/venue_data/playlist_cleanup.py:54 | a text without `C` holds no marker |
| PlaylistCleanup.StampAsWrittenKeepsParenthesis | scripts/venue_data/playlist_cleanup.py:53-56 | as written, the text handed to the parser for a generated description ends with `)` |
| PlaylistCleanup.StampTextOfStripped | scripts/venue_data/playlist_cleanup.py:55 | the corrected text is the as-written one with a final `)` dropped and stripped again |
| PlaylistCleanup.StampRoundTrip | scripts/venue_data/playlist_cleanup.py:53-56 | with the correction the parser gets back exactly the stamp the generator wrote |
| PlaylistCleanup.AsWrittenCreationTime | scripts/venue_data/playlist_cleanup.py:50-56 | as written, the creation time of a generated description is the parse of its stamp followed by `)` |
| PlaylistCleanup.AsWrittenGeneratedNeverExpires | scripts/venue_data/playlist_cleanup.py:27-30 | with a parser that rejects a text ending in `)`, as `fromisoformat` does, a generated test playlist never expires, whatever the cutoff |
| PlaylistCleanup.CorrectedCreationTimeOfGenerated | scripts/venue_data/playlist_cleanup.py:50-56 | with the correction, the creation time of a generated description is the parse of the stamp the generator wrote |
| PlaylistCleanup.StripOfStamp | scripts/venue_data/playlist_cleanup.py:55 | stripping ` <stamp>)` leaves `<stamp>)` |
| Frontend.GetPlaylistId | website/js/main.js:76-78 | the id holds no `/` |
| Frontend.PlaylistIdIsLastPiece | website/js/main.js:76-78 | the id is the URL's last `/` piece: a suffix after a `/`, or the whole URL when it has none |
| Frontend.EmbedOfSavedUrl | website/js/main.js:64-78 | the player of a saved open.spotify.com playlist URL embeds that playlist's id |
| Frontend.Capitalize | website/js/main.js:87-90 | capitalising keeps the length |
| Frontend.FormatMonthPieces | website/js/main.js:87-90 | `m_rest` shows `m` capitalised and the piece up to the next `_` |
| Frontend.FormatMonthKey | website/js/main.js:87-90 | a month key `m_y` shows as `M y` |
| Frontend.FormatMonthNoYear | website/js/main.js:87-90 | a name without `_` shows `undefined` as its year |
| Frontend.SplitAfterFirst | website/js/main.js:88 | splitting after a separator-free first part gives that part, then the pieces of the rest |
| Frontend.CardSectionsFirstOpen | website/js/main.js:47-64 | exactly the first section is open with the open arrow, each headed by its month and playing its own playlist |

## Left out

- Selenium, HTTP and BeautifulSoup fetching, screenshots and driver cleanup are left out: they are foreign library calls. A page is a parameter that returns the script texts or raises.
- OpenAI chat calls and tiktoken are left out: a model reply is an input text, and the tokenizer is an `encode`/`decode` pair of parameters.
- OAuth, refresh-token setup and spotipy are left out. Spotify is the scripted `Spotify.Client`. The data-processing generator's connection check is modelled by `PlaylistGenerator.PlaylistGenerator.Connect` from its `me` request on.
- `time.sleep` rate limits and all logging are left out: they carry no behaviour.
- `datetime.now`, `strptime` and `fromisoformat` are left out: each is a parameter, either a clock value or an uninterpreted parser. Times of day and time zones are not kept. Dates are calendar dates and cleanup times are whole seconds.
- `needs_update` is not defined in any file of this model. It is an uninterpreted predicate over the files, the venue key, the month and the city path.
- `get_next_months` inside the collectors, the playlist generators and the website builder is a parameter `months`, a list of month names. The two window computations are modelled on their own (ApiUtils.GetNextMonths, TextUtils.GetNextMonths), and a caller is expected to pass the window its source uses.
- VenuesApi.LoadVenues: the read side's window is a parameter `window`, `None` when `get_next_months` raises (ApiUtils.JanuaryThirtyFirstRaises) and the month names otherwise. The source calls it once per venue; the model reads it once for the whole load, so a clock that moves to another day during one load is not modelled.
- VenuesApi.LowerCaseSaveNotRead: the read side looks for `playlist_<Month>_YYYY.yaml` with a capitalised month (venue_playlists_api/utils.py:24), while the pipeline saves `playlist_<month>.yaml` under the lower-cased key (scripts/venue_data/text_utils.py:36). The model keeps both as written, so the route does not find the files the pipeline writes; the lemma proves this for one saved record.
- `load_venue_config` returns the whole YAML document, `{"venues": {...}}`, not the venue map. WebsiteData.SiteCities and ScriptsGeneratePlaylists.CityRun iterate the loaded document, as their sources do, so there the mismatch is modelled. CollectEvents.ProcessCity, UpdateAll.UpdateAll, GeneratePlaylists.ProcessCityPlaylists and VenueProcessor.ProcessVenue take the venue map as an input: what their own `load_venue_config` calls return is not modelled.
- `sys.exit(1)` at the end of `generate_playlists` is left out: the run just ends.
- String case mapping, `strip` and `title` are ASCII only. There is no Unicode case folding.
- `str()` of a list or a dict is the empty text in this model (`Values.Display`). The core only formats texts and numbers.
- The `lru_cache` on the language-model call in scripts/venue_data/extractor.py is left out. A reply is an input, so there is nothing to cache.
- The website's `loadVenues` (fetch, retry and DOM building) and `togglePlaylist` are left out: they mutate the DOM. `loadVenues` fetches `/data/sf_venues.json` and iterates it as an array of venues, each with an array of months. The builder writes `website/data/venues.json`, where both are dicts. `Frontend.CardSections` takes the months as the array the page code expects.
- The legacy Flask route's own 500 handler is left out. `LegacyApi.LoadVenues` answers `None` for every exception.
- scripts/playlist_data/storage.py is not part of this model. ScriptsGeneratePlaylists saves through the data-processing `PlaylistStorage.SavePlaylistInfo`; that the scripts' own `save_playlist_info` writes the same record at the same path is an assumption of this model.
- PlaylistStorage.SavePlaylistInfo: a write error is not modelled. The save always succeeds.
- WebsiteData.BuildWebsiteData: `mkdir(exist_ok=True)` succeeds exactly when `website/data` or `website` is already a directory. No other mkdir failure is modelled.
- Store.FileStore.MakeDirs: a path is a plain text; `Path` normalisation (`a//b`, `./a`, a trailing `/`) is not modelled, and no mkdir ever fails.
- ScraperFactory.SelectScraperType: `Values.Value` has no floats, so a float priority (`1.5`) is not modelled. A priority that is a list, a dict or null is `OtherKey`, which the model treats as unsortable against any other key; Python sorts two lists with each other, and that case is left out.
- VenueProcessor.ProcessVenue: one `updated` stamp is used for every artist file of the run, where save_artists_to_file calls `datetime.now()` once per file.
- VenueMain.ProcessVenue: the same single `updated` stamp for every month's file.
- CollectEvents.ProcessCity: each `process_venue` call is returned as a `VenueCall` (its city directory, key, entry and flag), not run. What one call does is VenueProcessor.ProcessVenue, and that a call which raises is caught is shown by CollectEvents.FailingVenueIsolated; the two are not composed into one run. UpdateAll.UpdateAll is modelled the same way.
- GeneratePlaylists.SearchArtists: the lemmas bound the artist loop per artist. No lemma composes the loop over two concatenated artist lists.
- PlaylistCleanup.CleanAllRecorded: it states that every recorded id was unfollowed with a returned request. The listing order of the recorded ids follows from `Sweep`'s tie to `CleanAll`, not from a separate lemma.
- ScriptsGeneratePlaylists.GeneratePlaylists: the data directory's listing is the input `entries`. When `data/venue-data` is missing, `iterdir()` raises `FileNotFoundError` (scripts/generate_playlists.py:49); the model then runs no city and raises nothing. Nothing is written in either case, so only the exception is not modelled.
- ArtistExtractor.DatedEvent: `parseMonthDay` is a parameter. The real `strptime(s, "%b %d")` (data_processing/venue_data/artist_extractor.py:50) parses in the year 1900, which is not a leap year, so it rejects "Feb 29" and such a line never yields an event, even in a leap year. A parameter that accepts it is checked against the current year instead.
- VenuesApi.GetVenues and LegacyApi.LoadVenues: the model's response body is the dict before `jsonify`. Flask's default JSON provider sorts object keys, so on the wire `last_updated` comes before `venues` and the months appear in alphabetical order, not in window order. `VenuesApi.MonthsOfInOrder` is about the dict. Serialisation order is not modelled.
- Only the first page of `current_user_playlists` is read, as in the source. Pagination is not modelled.
- Concurrency and the unit tests are not modelled.

## Findings

| source | as written | input that shows it | evidently intended | confidence | as-written member | corrected member |
|---|---|---|---|---|---|---|
| scripts/venue_data/scrapers/bandisintown.py:117-121 | builds `ArtistEvent(name=..., date=..., venue=...)`, but the `ArtistEvent` it imports (scripts/venue_data/models.py:4-13) has only `name` and `date`, so the constructor raises a `TypeError` that the per-item handler catches | any page whose JSON-LD holds a `MusicEvent` with a performer name and a valid `startDate` gives no event | every well-formed `MusicEvent` becomes an event at the venue | not executed | BandsInTown.AsWrittenFindsNoEvents | BandsInTown.ItemsEventsComplete |
| scripts/venue_data/text_utils.py:34-36 | entry i is the month of today + 30·i days | today = 1 January 2025 gives `[january_2025, january_2025, march_2025]`, and February is missing | the current month and the next two calendar months | not executed | TextUtils.ThirtyDayWindowSkipsFebruary | TextUtils.MonthWindowConsecutive |
| scripts/venue_data/playlist_cleanup.py:53-56 | parses the stripped text after `Created:`, but the data-processing generator ends its description with `(Created: <stamp>)` (data_processing/playlist_data/generator.py:86), so the parser gets `<stamp>)` | a test playlist described as `Top tracks from artists playing at V in m (Created: 2024-01-01 10:00:00)` gives `2024-01-01 10:00:00)`, which `fromisoformat` rejects, so the playlist is never removed by age | the parser gets the stamp the generator wrote | not executed | PlaylistCleanup.AsWrittenGeneratedNeverExpires | PlaylistCleanup.CorrectedCreationTimeOfGenerated |

The operations compute the code as written: the scraper's `GetEvents` uses the imported record,
which takes no venue, and `CreationTime` (and so `Expired`, `Cleanup` and the cleaner's methods)
parses the stamp text with its `)`. The corrected definitions sit beside them: the item reader
with a record type that takes a venue (`ItemEvent` with `recordTakesVenue` true), `StampText` and
`CorrectedCreationTime`, and the 30-day window's calendar-month counterpart `MonthWindow`. The
orchestrators take the month window as an input.
