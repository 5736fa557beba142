/** The song search: the search string sent upstream (built by QBuilder),
    the offset check, the pagination links (built by constructPageURL) and
    the projection of the upstream tracks (cleanData). The upstream search
    itself is an input: its tracks, or None when the call or its answer
    fails. */
module SongService {
  import opened Js

  /** The query object the route builds: track, artist, year, genre, album,
      in that order; None stands for an undefined field. */
  datatype SongQuery = SongQuery(track: Option<string>, artist: Option<string>, year: Option<string>,
                                 genre: Option<string>, album: Option<string>)

  /** The query's keys with their values, in enumeration order. */
  function Pairs(query: SongQuery): seq<(string, Option<string>)>
  {
    [("track", query.track), ("artist", query.artist), ("year", query.year),
     ("genre", query.genre), ("album", query.album)]
  }

  predicate TruthyField(v: Option<string>) { v.Some? && v.value != "" }

  /** At least one search field is truthy. */
  predicate HasSearchTerm(query: SongQuery)
  {
    TruthyField(query.track) || TruthyField(query.artist) || TruthyField(query.year) ||
    TruthyField(query.genre) || TruthyField(query.album)
  }

  // -------------------------------------------------------------------
  // The search string

  /** One search term, `key%3Avalue` (%3A is an escaped colon). */
  function Term(key: string, value: string): (t: string)
    ensures |t| >= 3
  {
    key + "%3A" + value
  }

  /** The terms of the defined pairs, in order. */
  function Terms(pairs: seq<(string, Option<string>)>): (ts: seq<string>)
    ensures |ts| <= |pairs|
    ensures forall i :: 0 <= i < |ts| ==> |ts[i]| >= 3
  {
    if pairs == [] then []
    else
      var last := pairs[|pairs| - 1];
      Terms(pairs[..|pairs| - 1]) + (if last.1.Some? then [Term(last.0, last.1.value)] else [])
  }

  /** The search string: the terms joined with "+". */
  function QueryString(pairs: seq<(string, Option<string>)>): string
  {
    Join(Terms(pairs), '+')
  }

  lemma QueryStringEmpty(pairs: seq<(string, Option<string>)>)
    ensures QueryString(pairs) == "" <==> Terms(pairs) == []
  {
    if Terms(pairs) != [] {
      JoinStartsWithFirst(Terms(pairs), '+');
    }
  }

  /** What adding the pair at index i does to the search string. */
  lemma QueryStringStep(pairs: seq<(string, Option<string>)>, i: nat)
    requires i < |pairs|
    ensures var before, p := QueryString(pairs[..i]), pairs[i];
      QueryString(pairs[..i + 1]) ==
        if p.1.None? then before
        else if before == "" then Term(p.0, p.1.value)
        else before + "+" + Term(p.0, p.1.value)
  {
    assert pairs[..i + 1][..i] == pairs[..i];
    QueryStringEmpty(pairs[..i]);
    var p := pairs[i];
    var before := Terms(pairs[..i]);
    if p.1.Some? {
      assert Terms(pairs[..i + 1]) == before + [Term(p.0, p.1.value)];
      if before != [] {
        JoinSnoc(before, Term(p.0, p.1.value), '+');
      } else {
        assert Terms(pairs[..i + 1]) == [Term(p.0, p.1.value)];
      }
    } else {
      assert Terms(pairs[..i + 1]) == before;
    }
  }

  /** The search string never begins with "+", as long as no key does. */
  lemma {:induction false} QueryStringNoLeadingPlus(pairs: seq<(string, Option<string>)>)
    requires forall j :: 0 <= j < |pairs| ==> pairs[j].0 != "" && pairs[j].0[0] != '+'
    ensures QueryString(pairs) == "" || QueryString(pairs)[0] != '+'
  {
    if pairs != [] {
      var n := |pairs| - 1;
      assert pairs[..n + 1] == pairs;
      QueryStringNoLeadingPlus(pairs[..n]);
      QueryStringStep(pairs, n);
    }
  }

  /** With no "+" in keys and values, splitting the search string at "+"
      gives back the terms. */
  lemma QueryStringSplitsIntoTerms(pairs: seq<(string, Option<string>)>)
    requires Terms(pairs) != []
    requires forall i :: 0 <= i < |Terms(pairs)| ==> '+' !in Terms(pairs)[i]
    ensures Split(QueryString(pairs), '+') == Terms(pairs)
  {
    SplitJoin(Terms(pairs), '+');
  }

  /** QBuilder: accumulates the search string in `q`. */
  class QBuilder {
    var q: string

    constructor ()
      ensures q == ""
    {
      q := "";
    }

    /** addQuery(key, value): an undefined value is skipped; otherwise the
        term is appended, after a "+" unless q is still empty. Returns the
        builder itself. */
    method AddQuery(key: string, value: Option<string>) returns (self: QBuilder)
      modifies this
      ensures self == this
      ensures value.None? ==> q == old(q)
      ensures value.Some? && old(q) == "" ==> q == Term(key, value.value)
      ensures value.Some? && old(q) != "" ==> q == old(q) + "+" + Term(key, value.value)
    {
      if value.Some? {
        if q != "" {
          q := q + "+" + key + "%3A" + value.value;
        } else {
          q := q + key + "%3A" + value.value;
        }
      }
      return this;
    }

    method Build() returns (r: string)
      ensures r == q
    {
      return q;
    }
  }

  /** The loop of getSongs that feeds every pair of the query to a fresh
      builder and builds the search string. */
  method BuildQuery(pairs: seq<(string, Option<string>)>) returns (q: string)
    ensures q == QueryString(pairs)
  {
    var builder := new QBuilder();
    for i := 0 to |pairs|
      invariant builder.q == QueryString(pairs[..i])
    {
      QueryStringStep(pairs, i);
      var _ := builder.AddQuery(pairs[i].0, pairs[i].1);
    }
    assert pairs[..|pairs|] == pairs;
    q := builder.Build();
  }

  // -------------------------------------------------------------------
  // Page links

  const BaseURL := "http://localhost:3000/songs?type=track"

  /** `key=value` for every defined pair, in order. */
  function Fields(pairs: seq<(string, Option<string>)>): seq<string>
  {
    if pairs == [] then []
    else
      var last := pairs[|pairs| - 1];
      Fields(pairs[..|pairs| - 1]) + (if last.1.Some? then [last.0 + "=" + last.1.value] else [])
  }

  /** The link to the page at `offset`: the base address, `&key=value` for
      every defined field in order, then `&offset=<offset>`; no link at all
      when there is no offset. */
  function PageURL(query: SongQuery, offset: Option<int>): string
  {
    if offset.None? then ""
    else Join([BaseURL] + Fields(Pairs(query)) + [OffsetField(offset.value)], '&')
  }

  lemma {:induction false} PageFieldsStep(pairs: seq<(string, Option<string>)>, i: nat, url: string)
    requires i < |pairs|
    requires url == Join([BaseURL] + Fields(pairs[..i]), '&')
    ensures (if pairs[i].1.Some? then url + "&" + pairs[i].0 + "=" + pairs[i].1.value else url)
         == Join([BaseURL] + Fields(pairs[..i + 1]), '&')
  {
    assert pairs[..i + 1][..i] == pairs[..i];
    var p := pairs[i];
    if p.1.Some? {
      JoinSnoc([BaseURL] + Fields(pairs[..i]), p.0 + "=" + p.1.value, '&');
      assert [BaseURL] + Fields(pairs[..i + 1]) == [BaseURL] + Fields(pairs[..i]) + [p.0 + "=" + p.1.value];
    } else {
      assert Fields(pairs[..i + 1]) == Fields(pairs[..i]);
    }
  }

  /** constructPageURL(query, offset). */
  method ConstructPageURL(query: SongQuery, offset: Option<int>) returns (url: string)
    ensures url == PageURL(query, offset)
  {
    if offset.None? {
      return "";
    }
    var pairs := Pairs(query);
    url := BaseURL;
    for i := 0 to |pairs|
      invariant url == Join([BaseURL] + Fields(pairs[..i]), '&')
    {
      PageFieldsStep(pairs, i, url);
      if pairs[i].1.Some? {
        url := url + "&" + pairs[i].0 + "=" + pairs[i].1.value;
      }
    }
    assert pairs[..|pairs|] == pairs;
    JoinSnoc([BaseURL] + Fields(pairs), OffsetField(offset.value), '&');
    url := url + "&" + OffsetField(offset.value);
  }

  /** The last field of a page link. */
  function OffsetField(offset: int): string
  {
    "offset=" + IntToDecimal(offset)
  }

  /** With no "&" in the field values, a link splits at "&" into the base
      address, the defined fields and the offset field, and the offset reads
      back through the same check getSongs applies to its offset parameter. */
  lemma PageURLFields(query: SongQuery, offset: int)
    requires offset >= 0
    requires forall i :: 0 <= i < |Fields(Pairs(query))| ==> '&' !in Fields(Pairs(query))[i]
    ensures Split(PageURL(query, Some(offset)), '&')
         == [BaseURL] + Fields(Pairs(query)) + [OffsetField(offset)]
    ensures ParseOffset(Some(IntToDecimal(offset))) == Ok(offset)
  {
    var fields := [BaseURL] + Fields(Pairs(query)) + [OffsetField(offset)];
    assert forall i :: 0 <= i < |fields| ==> '&' !in fields[i] by {
      assert '&' !in BaseURL;
      assert offset >= 0;
      var digits := NatToDecimal(offset);
      assert '&' !in OffsetField(offset) by {
        forall i | 0 <= i < |digits| ensures digits[i] != '&' { assert IsDigit(digits[i]); }
      }
      forall i | 0 <= i < |fields| ensures '&' !in fields[i] {
        if 0 < i < |fields| - 1 { assert fields[i] == Fields(Pairs(query))[i - 1]; }
      }
    }
    SplitJoin(fields, '&');
    DecimalRoundTrip(offset);
  }

  // -------------------------------------------------------------------
  // The offset parameter

  const OffsetMessage := "Offset must be a non-negative number"

  /** The offset check of getSongs: absent means 0; a given string is read
      with parseInt and must give a non-negative number. */
  function ParseOffset(offset: Option<string>): (r: Result<int>)
    ensures offset.None? ==> r == Ok(0)
    ensures r.Ok? ==> r.value >= 0
    ensures r.Err? ==> r.error == Thrown(400, OffsetMessage)
    ensures offset.Some? ==> (r.Ok? <==> ParseIntPrefix(offset.value).Some? && ParseIntPrefix(offset.value).value >= 0)
    ensures offset.Some? && r.Ok? ==> r.value == ParseIntPrefix(offset.value).value
  {
    match offset
    case None => Ok(0)
    case Some(s) =>
      var parsed := ParseIntPrefix(s);
      if parsed.None? || parsed.value < 0 then Err(Thrown(400, OffsetMessage)) else Ok(parsed.value)
  }

  // -------------------------------------------------------------------
  // Upstream data

  datatype Artist = Artist(id: string, name: string, spotifyUrl: string)

  /** An upstream track: `albumImages` are the urls of its album's images. */
  datatype Track = Track(id: string, name: string, spotifyUrl: string, popularity: int,
                         albumImages: seq<string>, artists: seq<Artist>)

  /** A cleaned song. */
  datatype Song = Song(spotifyId: string, name: string, link: string, popularity: int,
                       image: string, artists: seq<Artist>)

  /** The upstream answer's `tracks`: its items, total, page size and `next`. */
  datatype Tracks = Tracks(items: seq<Track>, total: int, limit: int, next: Value)

  predicate Cleanable(t: Track) { |t.albumImages| >= 2 }

  function CleanTrack(t: Track): Song
    requires Cleanable(t)
  {
    Song(t.id, t.name, t.spotifyUrl, t.popularity, t.albumImages[1], t.artists)
  }

  /** cleanData: the projection of every track, in order; None where reading
      the second album image of some track throws. */
  function CleanData(items: seq<Track>): (r: Option<seq<Song>>)
    ensures r.Some? <==> forall i :: 0 <= i < |items| ==> Cleanable(items[i])
    ensures r.Some? ==> |r.value| == |items|
    ensures r.Some? ==> forall i :: 0 <= i < |items| ==>
      r.value[i].spotifyId == items[i].id && r.value[i].image == items[i].albumImages[1] &&
      r.value[i] == CleanTrack(items[i])
  {
    if items == [] then Some([])
    else if !Cleanable(items[0]) then None
    else match CleanData(items[1..])
      case None => None
      case Some(rest) => Some([CleanTrack(items[0])] + rest)
  }

  // -------------------------------------------------------------------
  // Pagination

  /** The offset of the previous page, as computed from the total and the
      page size; the total cancels out. */
  function PreviousOffset(offset: int, tracks: Tracks): (p: int)
    ensures p == if offset - tracks.limit > 0 then offset - tracks.limit else 0
    ensures p >= 0
  {
    var total := tracks.total - offset;
    if offset - (total - (total - tracks.limit)) > 0 then offset - (total - (total - tracks.limit)) else 0
  }

  /** The offset of the next page, when upstream reports one. */
  function NextOffset(offset: int, tracks: Tracks): (n: Option<int>)
    ensures n.Some? <==> Truthy(tracks.next)
    ensures n.Some? ==> n.value == offset + tracks.limit
  {
    var total := tracks.total - offset;
    if Truthy(tracks.next) then Some(offset + (total - (total - tracks.limit))) else None
  }

  /** Going to the next page and then back returns to the same offset. */
  lemma PreviousUndoesNext(offset: int, tracks: Tracks, later: Tracks)
    requires offset >= 0 && tracks.limit > 0 && later.limit == tracks.limit
    requires Truthy(tracks.next)
    ensures PreviousOffset(NextOffset(offset, tracks).value, later) == offset
  {
  }

  const GatewayError := Thrown(502, "The server was acting as a gateway or proxy and received an invalid response from the upstream server")
  const NoSearchTermMessage := "A track, artist, year, album, or genre must be provided through query params"

  datatype SongPage = SongPage(showPrevious: string, showMore: string, songs: seq<Song>)

  /** The page getSongs returns for a checked offset and the upstream answer. */
  function PageFrom(query: SongQuery, offset: int, upstream: Option<Tracks>): (r: Result<SongPage>)
    ensures r.Err? ==> r.error == GatewayError
    ensures r.Ok? <==> upstream.Some? && CleanData(upstream.value.items).Some?
    ensures r.Ok? ==> r.value.songs == CleanData(upstream.value.items).value
    ensures r.Ok? ==> r.value.showMore == PageURL(query, NextOffset(offset, upstream.value))
    ensures r.Ok? ==>
      r.value.showPrevious == (if offset > 0 then PageURL(query, Some(PreviousOffset(offset, upstream.value))) else "")
    ensures r.Ok? ==> (r.value.showMore == "" <==> !Truthy(upstream.value.next))
    ensures r.Ok? && offset >= 0 ==> (r.value.showPrevious == "" <==> offset == 0)
  {
    match upstream
    case None => Err(GatewayError)
    case Some(tracks) =>
      match CleanData(tracks.items)
      case None => Err(GatewayError)
      case Some(songs) =>
        var previous := if offset > 0 then PageURL(query, Some(PreviousOffset(offset, tracks))) else "";
        var next := PageURL(query, NextOffset(offset, tracks));
        assert previous != "" <== offset > 0 by { PageURLNotEmpty(query, PreviousOffset(offset, tracks)); }
        assert next != "" <== Truthy(tracks.next) by {
          if Truthy(tracks.next) { PageURLNotEmpty(query, NextOffset(offset, tracks).value); }
        }
        Ok(SongPage(previous, next, songs))
  }

  lemma PageURLNotEmpty(query: SongQuery, offset: int)
    ensures PageURL(query, Some(offset)) != ""
  {
    JoinStartsWithFirst([BaseURL] + Fields(Pairs(query)) + [OffsetField(offset)], '&');
  }

  /** getSongs(query, offset). `upstream` is the upstream search's tracks;
      `request` is the search string and offset sent upstream. */
  method GetSongs(query: SongQuery, offset: Option<string>, upstream: Option<Tracks>)
    returns (request: Option<(string, int)>, r: Result<SongPage>)
    ensures !HasSearchTerm(query) ==> request == None && r == Err(Thrown(400, NoSearchTermMessage))
    ensures HasSearchTerm(query) && ParseOffset(offset).Err? ==> request == None && r == Err(ParseOffset(offset).error)
    ensures HasSearchTerm(query) && ParseOffset(offset).Ok? ==>
      && request == Some((QueryString(Pairs(query)), ParseOffset(offset).value))
      && r == PageFrom(query, ParseOffset(offset).value, upstream)
  {
    if !HasSearchTerm(query) {
      return None, Err(Thrown(400, NoSearchTermMessage));
    }
    var checked := ParseOffset(offset);
    if checked.Err? {
      return None, Err(checked.error);
    }
    var start := checked.value;
    var q := BuildQuery(Pairs(query));
    request := Some((q, start));
    if upstream.None? {
      return request, Err(GatewayError);
    }
    var tracks := upstream.value;
    var filtered := CleanData(tracks.items);
    if filtered.None? {
      return request, Err(GatewayError);
    }
    var previous := "";
    if start > 0 {
      previous := ConstructPageURL(query, Some(PreviousOffset(start, tracks)));
    }
    var next := ConstructPageURL(query, NextOffset(start, tracks));
    return request, Ok(SongPage(previous, next, filtered.value));
  }
}
