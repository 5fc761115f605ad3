/** website/js/main.js: the string helpers of the venue page and the sections of a venue card.
    A card lists its months in order; the first month's playlist is shown open, every other one
    collapsed, and each embeds the playlist by the id at the end of its URL. */
module Frontend {
  import opened Strings

  /** The arrow of an open section and of a collapsed one. */
  const ARROW_OPEN := "▼"
  const ARROW_CLOSED := "▶"
  /** The embed player's address, before the playlist id. */
  const EMBED_PREFIX := "https://open.spotify.com/embed/playlist/"
  /** The shareable playlist address the generators save, before the id. */
  const OPEN_PREFIX := "https://open.spotify.com/playlist/"

  /** A month of a venue as the page receives it. */
  datatype MonthInfo = MonthInfo(name: string, playlistUrl: string)

  /** What createMonthSection renders: the heading text, the arrow, whether the player is
      collapsed, and the player's address. */
  datatype Section = Section(heading: string, arrow: string, collapsed: bool, embedSrc: string)

  /** getPlaylistId: `url.split('/').pop()`. */
  function GetPlaylistId(url: string): (r: string)
    ensures '/' !in r
  {
    LastPiece(url, '/')
  }

  /** `s.charAt(0).toUpperCase() + s.slice(1)`, for ASCII letters. */
  function Capitalize(s: string): (r: string)
    ensures |r| == |s|
  {
    if s == [] then [] else [UpperChar(s[0])] + s[1..]
  }

  /** formatMonth: `const [month, year] = monthStr.split('_')`; a text without `_` has no second
      piece, and the template prints `undefined` for it. */
  function FormatMonth(monthStr: string): string {
    var parts := Split(monthStr, '_');
    var year := if |parts| >= 2 then parts[1] else "undefined";
    Capitalize(parts[0]) + " " + year
  }

  /** createMonthSection. */
  function MonthSection(month: MonthInfo, isFirst: bool): Section {
    Section(FormatMonth(month.name), if isFirst then ARROW_OPEN else ARROW_CLOSED, !isFirst,
            EMBED_PREFIX + GetPlaylistId(month.playlistUrl))
  }

  /** createVenueCard's sections: `venue.months.map((month, index) => createMonthSection(month, index === 0))`. */
  function CardSections(months: seq<MonthInfo>): (r: seq<Section>)
  {
    seq(|months|, i requires 0 <= i < |months| => MonthSection(months[i], i == 0))
  }

  /** Exactly the first section of a card is open, with the open arrow; every other one is
      collapsed with the closed arrow. Each section is headed by its month and plays its own
      playlist. */
  lemma CardSectionsFirstOpen(months: seq<MonthInfo>)
    ensures var r := CardSections(months);
      forall i :: 0 <= i < |r| ==>
        (!r[i].collapsed <==> i == 0) && (r[i].arrow == ARROW_OPEN <==> i == 0)
        && r[i].heading == FormatMonth(months[i].name) && r[i].embedSrc == EMBED_PREFIX + GetPlaylistId(months[i].playlistUrl)
  {
    assert ARROW_OPEN != ARROW_CLOSED by {
      assert ARROW_OPEN[0] != ARROW_CLOSED[0];
    }
  }

  /** The id of a URL is its last `/` piece: a suffix of the URL, the whole URL when it has no
      `/`, and otherwise preceded by a `/`. */
  lemma PlaylistIdIsLastPiece(url: string)
    ensures var id := GetPlaylistId(url);
      |id| <= |url| && url[|url| - |id|..] == id && (id == url || url[|url| - |id| - 1] == '/')
    ensures '/' !in url ==> GetPlaylistId(url) == url
  {
    LastPieceIsSuffix(url, '/');
    if '/' !in url {
      NoSepSplit(url, '/');
    }
  }

  /** The player of a saved playlist URL plays that playlist: the embed address carries the id. */
  lemma EmbedOfSavedUrl(id: string)
    requires '/' !in id
    ensures MonthSection(MonthInfo("", OPEN_PREFIX + id), false).embedSrc == EMBED_PREFIX + id
  {
    assert OPEN_PREFIX + id == "https://open.spotify.com/playlist" + ['/'] + id;
    LastPieceOfAppend("https://open.spotify.com/playlist", id, '/');
  }

  /** Splitting after a separator-free first part: that part, then the pieces of the rest. */
  lemma {:induction false} SplitAfterFirst(a: string, sep: char, b: string)
    requires sep !in a
    ensures Split(a + [sep] + b, sep) == [a] + Split(b, sep)
    decreases |a|
  {
    if a == [] {
      assert ([sep] + b)[1..] == b;
    } else {
      assert (a + [sep] + b)[1..] == a[1..] + [sep] + b;
      SplitAfterFirst(a[1..], sep, b);
      assert [a[0]] + a[1..] == a;
    }
  }

  /** formatMonth of `m_y…` shows `m` capitalised, a space, and the text up to the next `_`:
      only the first two pieces count. */
  lemma FormatMonthPieces(m: string, rest: string)
    requires '_' !in m
    ensures FormatMonth(m + "_" + rest) == Capitalize(m) + " " + FirstPiece(rest, '_')
  {
    SplitAfterFirst(m, '_', rest);
    FirstPieceIsSplitHead(rest, '_');
  }

  /** A month key `m_y` of the pipelines reads as `M y`. */
  lemma FormatMonthKey(m: string, y: string)
    requires '_' !in m && '_' !in y
    ensures FormatMonth(m + "_" + y) == Capitalize(m) + " " + y
  {
    FormatMonthPieces(m, y);
  }

  /** A name without `_` has no year piece. */
  lemma FormatMonthNoYear(m: string)
    requires '_' !in m
    ensures FormatMonth(m) == Capitalize(m) + " undefined"
  {
    NoSepSplit(m, '_');
  }
}
