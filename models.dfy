/**
 * The provider-bound models: quality and media choice for songs, the album's
 * cached song list, the lazy song-list pager and the search dispatcher.
 * Every call into the vendor's HTTP service is a function parameter (an
 * oracle): `api` for search, `func` for a song-list page, `albumSongs` for
 * an album's first page, `getSongMedia` for a stream URL.
 */
module Models {
  import opened Wrappers
  import opened Domain
  import opened Schema

  /** The page size every listing and search asks for. */
  const PageSize := 30

  // ------------------------------------------------------------ MiguSongModel

  /** `MiguSongModel.list_quality()`. */
  function ListQuality(song: SongModel): (r: Option<seq<string>>)
    ensures r == song.qualities
  {
    song.qualities
  }

  /** `list_quality` of a song built from a detail payload is the payload's
      tier list: it ends with `sq` and `lq`, and holds `shq` and `hq` as the
      flags say. */
  lemma ListQualityOfDetail(d: SongDetail, song: SongModel)
    requires SongDetailModel(d) == Ok(song)
    ensures ListQuality(song) == Some(Qualities(d.hasSq, d.hasHq))
    ensures var q := ListQuality(song).value;
      && q[|q| - 2..] == ["sq", "lq"]
      && ("shq" in q <==> d.hasSq == Some(true))
      && ("hq" in q <==> d.hasHq == Some(true))
  {
    var q := Qualities(d.hasSq, d.hasHq);
    assert ListQuality(song) == Some(q);
    QualitiesShape(d.hasSq, d.hasHq);
    QualitiesMembership(d.hasSq, d.hasHq);
  }

  /** `MiguSongModel.get_media(quality)`: the URL comes from the service; the
      lossless format and its bitrate go with `shq` and only with it. */
  function GetMedia(song: SongModel, quality: string,
                    getSongMedia: (Option<string>, Option<Json>, string) -> string): (m: Media)
    ensures m.url == getSongMedia(song.identifier, song.contentId, quality)
    ensures m.format.Some? && m.bitrate.Some?
    ensures m.format == Some("2000kflac") <==> quality == "shq"
    ensures m.bitrate == Some("2000") <==> quality == "shq"
    ensures m.format == Some("2000kflac") <==> m.bitrate == Some("2000")
    ensures quality != "shq" ==> m.format == Some("320kmp3") && m.bitrate == Some("320")
  {
    var url := getSongMedia(song.identifier, song.contentId, quality);
    Media(url,
          Some(if quality == "shq" then "2000kflac" else "320kmp3"),
          Some(if quality == "shq" then "2000" else "320"))
  }

  /** `MiguSongModel.get(identifier)`: the detail envelope's `data` adapted;
      a missing `data` raises. */
  function GetSong(result: SongDetailResult): (r: Result<SongModel>)
    ensures result.data.None? ==> r.Err?
    ensures result.data.Some? ==> r == SongDetailModel(result.data.value)
  {
    match result.data
    case None => Err(NoneHasNoAttribute("model"))
    case Some(d) => SongDetailModel(d)
  }

  /** `MiguAlbumModel.get(identifier)`, likewise. */
  function GetAlbum(result: AlbumDetailResult): (r: Result<AlbumModel>)
    ensures result.data.None? ==> r.Err?
    ensures result.data.Some? ==> r == Ok(AlbumDetailModel(result.data.value))
  {
    match result.data
    case None => Err(NoneHasNoAttribute("model"))
    case Some(d) => Ok(AlbumDetailModel(d))
  }

  // ------------------------------------------------------------ adapting a list

  /** `[f(x) for x in xs]` where `f` may raise: the first raise wins. */
  function ModelAll<A, B>(xs: seq<A>, f: A -> Result<B>): (r: Result<seq<B>>)
    ensures r.Ok? <==> forall i | 0 <= i < |xs| :: f(xs[i]).Ok?
    ensures r.Ok? ==> |r.value| == |xs| && forall i | 0 <= i < |xs| :: r.value[i] == f(xs[i]).value
  {
    if xs == [] then Ok([])
    else match f(xs[0])
      case Err(e) => Err(e)
      case Ok(y) =>
        (match ModelAll(xs[1..], f)
         case Err(e) => Err(e)
         case Ok(ys) => Ok([y] + ys))
  }

  /** The error of ModelAll is that of the first element whose adaptation raises. */
  lemma {:induction false} ModelAllFirstError<A, B>(xs: seq<A>, f: A -> Result<B>, i: nat)
    requires i < |xs| && f(xs[i]).Err?
    requires forall k | 0 <= k < i :: f(xs[k]).Ok?
    ensures ModelAll(xs, f) == Err(f(xs[i]).error)
  {
    if i > 0 {
      ModelAllFirstError(xs[1..], f, i - 1);
    }
  }

  /** The loop `for item in rows: items.append(item.model())`. */
  method ModelEach<A, B>(rows: seq<A>, f: A -> Result<B>) returns (r: Result<seq<B>>)
    ensures r == ModelAll(rows, f)
  {
    var items: seq<B> := [];
    var i := 0;
    while i < |rows|
      invariant 0 <= i <= |rows| && |items| == i
      invariant forall k | 0 <= k < i :: f(rows[k]).Ok? && items[k] == f(rows[k]).value
    {
      var m := f(rows[i]);
      if m.Err? {
        ModelAllFirstError(rows, f, i);
        return Err(m.error);
      }
      items := items + [m.value];
      i := i + 1;
    }
    assert forall k | 0 <= k < |rows| :: f(rows[k]).Ok?;
    assert items == ModelAll(rows, f).value;
    return Ok(items);
  }

  // ------------------------------------------------------------ search

  /** The search types of the host player, as its own enumeration parses them;
      `Other` stands for every host type the plugin does not serve. */
  datatype HostSearchType = So | Al | Ar | Pl | Vi | Other(name: string)

  /** The mapping at the head of `search`. */
  function ProviderSearchType(t: HostSearchType): (r: Option<SearchType>)
    ensures r.None? <==> t.Other?
    ensures r == Some(Song) <==> t == So
    ensures r == Some(Album) <==> t == Al
    ensures r == Some(Artist) <==> t == Ar
    ensures r == Some(Playlist) <==> t == Pl
    ensures r == Some(Mv) <==> t == Vi
  {
    match t
    case So => Some(Song)
    case Al => Some(Album)
    case Ar => Some(Artist)
    case Pl => Some(Playlist)
    case Vi => Some(Mv)
    case Other(_) => None
  }

  /** The table of `search_by_type`: which list to read off the envelope and
      which list of the search result to fill. */
  function SearchFields(t: SearchType): (r: (string, string))
    ensures r.0 == ListField(GetResultByStype(t))
  {
    match t
    case Song => ("musics", "songs")
    case Album => ("albums", "albums")
    case Artist => ("artists", "artists")
    case Playlist => ("playlists", "playlists")
    case Mv => ("mv", "videos")
  }

  /** The table agrees with the envelope classes: the list it reads is the one
      the class `get_result_by_stype` picks declares, and no other class
      declares it. Distinct types fill distinct output lists. */
  lemma SearchFieldsMatchEnvelopes(t: SearchType, c: EnvelopeClass, t2: SearchType)
    ensures ListField(GetResultByStype(t)) == SearchFields(t).0
    ensures SearchFields(t).0 in DeclaredFields(c) <==> c == GetResultByStype(t)
    ensures SearchFields(t).1 == SearchFields(t2).1 <==> t == t2
  {
  }

  /** What `search_by_type` makes of one decoded envelope. */
  function SearchOutcome(stype: SearchType, data: SearchEnvelope): (r: Result<SearchModel>)
    ensures r.Ok? ==> SearchFields(stype).0 in DeclaredFields(ClassOf(data)) && !ListMissing(data)
  {
    var field := SearchFields(stype).0;
    if field !in DeclaredFields(ClassOf(data)) then Err(FieldNotFound)
    else match data
      case SongSearchResult(_, rows) =>
        if rows.None? then Err(NoneNotIterable(field)) else
        (match ModelAll(rows.value, (x: SearchSong) => Ok(SearchSongModel(x)))
         case Err(e) => Err(e)
         case Ok(items) => Ok(EmptySearch.(songs := Some(items))))
      case AlbumSearchResult(_, rows) =>
        if rows.None? then Err(NoneNotIterable(field)) else
        (match ModelAll(rows.value, SearchAlbumModel)
         case Err(e) => Err(e)
         case Ok(items) => Ok(EmptySearch.(albums := Some(items))))
      case ArtistSearchResult(_, rows) =>
        if rows.None? then Err(NoneNotIterable(field)) else
        (match ModelAll(rows.value, (x: SearchArtist) => Ok(SearchArtistModel(x)))
         case Err(e) => Err(e)
         case Ok(items) => Ok(EmptySearch.(artists := Some(items))))
      case PlaylistSearchResult(_, rows) =>
        if rows.None? then Err(NoneNotIterable(field)) else
        (match ModelAll(rows.value, (x: SearchPlaylist) => Ok(SearchPlaylistModel(x)))
         case Err(e) => Err(e)
         case Ok(items) => Ok(EmptySearch.(playlists := Some(items))))
      case MvSearchResult(_, rows) =>
        if rows.None? then Err(NoneNotIterable(field)) else
        (match ModelAll(rows.value, (x: SearchMv) => Ok(SearchMvModel(x)))
         case Err(e) => Err(e)
         case Ok(items) => Ok(EmptySearch.(videos := Some(items))))
  }

  /** One call to the search endpoint: `(keyword, stype, page, page_size)`. */
  datatype SearchRequest = SearchRequest(keyword: string, stype: SearchType, page: int, pageSize: int)

  /** `search_by_type(keyword, stype)`: one search request for page 1 of 30
      rows, then every row of the selected list adapted, in order. */
  method SearchByType(keyword: string, stype: SearchType,
                      api: (string, SearchType, int, int) -> SearchEnvelope)
    returns (r: Result<SearchModel>, ghost calls: seq<SearchRequest>)
    ensures calls == [SearchRequest(keyword, stype, 1, PageSize)]
    ensures r == SearchOutcome(stype, api(keyword, stype, 1, PageSize))
  {
    var data := api(keyword, stype, 1, PageSize);
    calls := [SearchRequest(keyword, stype, 1, PageSize)];
    var (field, rfield) := SearchFields(stype);
    if field !in DeclaredFields(ClassOf(data)) {
      r := Err(FieldNotFound); return;
    }
    match data {
      case SongSearchResult(_, rows) =>
        if rows.None? { r := Err(NoneNotIterable(field)); return; }
        var items := ModelEach(rows.value, (x: SearchSong) => Ok(SearchSongModel(x)));
        if items.Err? { r := Err(items.error); return; }
        r := Ok(EmptySearch.(songs := Some(items.value)));
      case AlbumSearchResult(_, rows) =>
        if rows.None? { r := Err(NoneNotIterable(field)); return; }
        var items := ModelEach(rows.value, SearchAlbumModel);
        if items.Err? { r := Err(items.error); return; }
        r := Ok(EmptySearch.(albums := Some(items.value)));
      case ArtistSearchResult(_, rows) =>
        if rows.None? { r := Err(NoneNotIterable(field)); return; }
        var items := ModelEach(rows.value, (x: SearchArtist) => Ok(SearchArtistModel(x)));
        if items.Err? { r := Err(items.error); return; }
        r := Ok(EmptySearch.(artists := Some(items.value)));
      case PlaylistSearchResult(_, rows) =>
        if rows.None? { r := Err(NoneNotIterable(field)); return; }
        var items := ModelEach(rows.value, (x: SearchPlaylist) => Ok(SearchPlaylistModel(x)));
        if items.Err? { r := Err(items.error); return; }
        r := Ok(EmptySearch.(playlists := Some(items.value)));
      case MvSearchResult(_, rows) =>
        if rows.None? { r := Err(NoneNotIterable(field)); return; }
        var items := ModelEach(rows.value, (x: SearchMv) => Ok(SearchMvModel(x)));
        if items.Err? { r := Err(items.error); return; }
        r := Ok(EmptySearch.(videos := Some(items.value)));
    }
  }

  /** `search(keyword, type_=...)`: host types outside the five raise
      'unsupported search' before any request is made. */
  method Search(keyword: string, hostType: HostSearchType,
                api: (string, SearchType, int, int) -> SearchEnvelope)
    returns (r: Result<SearchModel>, ghost calls: seq<SearchRequest>)
    ensures hostType.Other? ==> r == Err(UnsupportedSearch)
    ensures !hostType.Other? ==>
      r == SearchOutcome(ProviderSearchType(hostType).value, api(keyword, ProviderSearchType(hostType).value, 1, PageSize))
    ensures hostType.Other? ==> calls == []
    ensures !hostType.Other? ==> calls == [SearchRequest(keyword, ProviderSearchType(hostType).value, 1, PageSize)]
  {
    var stype := ProviderSearchType(hostType);
    if stype.None? {
      return Err(UnsupportedSearch), [];
    }
    r, calls := SearchByType(keyword, stype.value, api);
  }

  /** A search raises 'field not found' exactly when the envelope is not of
      the class the search type is decoded into. */
  lemma SearchFieldNotFound(stype: SearchType, data: SearchEnvelope)
    ensures SearchOutcome(stype, data) == Err(FieldNotFound) <==> ClassOf(data) != GetResultByStype(stype)
  {
    SearchFieldsMatchEnvelopes(stype, ClassOf(data), stype);
    SearchErrors(stype, data);
  }

  /** The only exceptions a search lets escape: 'field not found', the
      selected list missing, or an album row without singers. */
  lemma SearchErrors(stype: SearchType, data: SearchEnvelope)
    ensures SearchFields(stype).0 !in DeclaredFields(ClassOf(data)) ==> SearchOutcome(stype, data) == Err(FieldNotFound)
    ensures SearchFields(stype).0 in DeclaredFields(ClassOf(data)) && SearchOutcome(stype, data).Err? ==>
      SearchOutcome(stype, data).error == (if ListMissing(data) then NoneNotIterable(SearchFields(stype).0) else NoneNotIterable("singer"))
  {
    if data.AlbumSearchResult? && data.albums.Some? {
      if exists i | 0 <= i < |data.albums.value| :: data.albums.value[i].singer.None? {
        AlbumSearchRowRaises(data);
      }
    }
  }

  /** The list a search envelope carries is missing. */
  predicate ListMissing(data: SearchEnvelope) {
    match data
    case SongSearchResult(_, rows) => rows.None?
    case ArtistSearchResult(_, rows) => rows.None?
    case AlbumSearchResult(_, rows) => rows.None?
    case PlaylistSearchResult(_, rows) => rows.None?
    case MvSearchResult(_, rows) => rows.None?
  }

  /** Given the right class, iterating a missing list raises TypeError, and
      nothing else raises that error about the list. */
  lemma SearchListMissing(stype: SearchType, data: SearchEnvelope)
    requires ClassOf(data) == GetResultByStype(stype)
    ensures SearchOutcome(stype, data) == Err(NoneNotIterable(SearchFields(stype).0)) <==> ListMissing(data)
  {
    SearchFieldsMatchEnvelopes(stype, ClassOf(data), stype);
    SearchErrors(stype, data);
    assert SearchFields(stype).0 != "singer" by {
      assert "singer"[1] != SearchFields(stype).0[1];
    }
  }

  /** An album search raises as soon as one row has no singer list, whatever
      the other rows hold. */
  lemma AlbumSearchRowRaises(data: SearchEnvelope)
    requires data.AlbumSearchResult? && data.albums.Some?
    requires exists i | 0 <= i < |data.albums.value| :: data.albums.value[i].singer.None?
    ensures SearchOutcome(Album, data) == Err(NoneNotIterable("singer"))
  {
    var rows := data.albums.value;
    var i := FirstMissingSinger(rows);
    ModelAllFirstError(rows, SearchAlbumModel, i);
  }

  /** The index of the first album row without a singer list. */
  function FirstMissingSinger(rows: seq<SearchAlbum>): (i: nat)
    requires exists i | 0 <= i < |rows| :: rows[i].singer.None?
    ensures i < |rows| && rows[i].singer.None?
    ensures forall k | 0 <= k < i :: rows[k].singer.Some?
  {
    if rows[0].singer.None? then 0 else 1 + FirstMissingSinger(rows[1..])
  }

  /** A successful search fills exactly the output list the table names, with
      one model per envelope row, in the envelope's order. */
  lemma SearchFillsTableField(stype: SearchType, data: SearchEnvelope)
    requires SearchOutcome(stype, data).Ok?
    ensures var m := SearchOutcome(stype, data).value;
      && FilledFields(m) == {SearchFields(stype).1}
      && (data.SongSearchResult? ==>
            |m.songs.value| == |data.musics.value|
            && (forall i | 0 <= i < |data.musics.value| :: m.songs.value[i] == SearchSongModel(data.musics.value[i])))
      && (data.AlbumSearchResult? ==>
            |m.albums.value| == |data.albums.value|
            && (forall i | 0 <= i < |data.albums.value| :: Ok(m.albums.value[i]) == SearchAlbumModel(data.albums.value[i])))
      && (data.ArtistSearchResult? ==>
            |m.artists.value| == |data.artists.value|
            && (forall i | 0 <= i < |data.artists.value| :: m.artists.value[i] == SearchArtistModel(data.artists.value[i])))
      && (data.PlaylistSearchResult? ==>
            |m.playlists.value| == |data.playlists.value|
            && (forall i | 0 <= i < |data.playlists.value| :: m.playlists.value[i] == SearchPlaylistModel(data.playlists.value[i])))
      && (data.MvSearchResult? ==>
            |m.videos.value| == |data.mv.value|
            && (forall i | 0 <= i < |data.mv.value| :: m.videos.value[i] == SearchMvModel(data.mv.value[i])))
  {
  }

  // ------------------------------------------------------------ MiguAlbumModel.songs

  /** One call to a listing endpoint: `(identifier, page, page_size)`. */
  datatype PageRequest<I> = PageRequest(identifier: I, page: int, pageSize: int)

  /** `[o.model() for o in result.result.results]`. */
  function AlbumSongsOf(res: SongsResult): (r: Result<seq<SongModel>>)
    ensures res.result.None? ==> r == Err(NoneHasNoAttribute("results"))
    ensures res.result.Some? && res.result.value.results.None? ==> r == Err(NoneNotIterable("results"))
    ensures r.Ok? ==>
      && res.result.Some? && res.result.value.results.Some?
      && |r.value| == |res.result.value.results.value|
      && (forall i | 0 <= i < |r.value| :: Ok(r.value[i]) == SongDetailModel(res.result.value.results.value[i]))
  {
    if res.result.None? then Err(NoneHasNoAttribute("results"))
    else if res.result.value.results.None? then Err(NoneNotIterable("results"))
    else ModelAll(res.result.value.results.value, SongDetailModel)
  }

  /** An album with its set-once song cache. */
  class MiguAlbumModel {
    const album: AlbumModel
    var cachedSongs: Option<seq<SongModel>>
    /** The `album_songs` requests made so far, in order. */
    ghost var fetches: seq<PageRequest<Option<string>>>

    constructor (album: AlbumModel)
      ensures this.album == album && cachedSongs == None && fetches == []
    {
      this.album := album;
      cachedSongs := None;
      fetches := [];
    }

    /** The `songs` getter: fetches page 1 of 30 only while nothing is cached;
        a successful first read caches its list (even an empty one) and every
        later read returns that list without a request. A raising first read
        caches nothing. */
    method Songs(albumSongs: (Option<string>, int, int) -> SongsResult) returns (r: Result<seq<SongModel>>)
      modifies this
      ensures old(cachedSongs).Some? ==>
        r == Ok(old(cachedSongs).value) && cachedSongs == old(cachedSongs) && fetches == old(fetches)
      ensures old(cachedSongs).None? ==>
        && fetches == old(fetches) + [PageRequest(album.identifier, 1, PageSize)]
        && r == AlbumSongsOf(albumSongs(album.identifier, 1, PageSize))
        && cachedSongs == (if r.Ok? then Some(r.value) else None)
    {
      if cachedSongs.None? {
        var result := albumSongs(album.identifier, 1, PageSize);
        fetches := fetches + [PageRequest(album.identifier, 1, PageSize)];
        var songs := AlbumSongsOf(result);
        if songs.Err? {
          return Err(songs.error);
        }
        cachedSongs := Some(songs.value);
      }
      return Ok(cachedSongs.value);
    }

    /** The `songs` setter does nothing. */
    method SetSongs(songs: seq<SongModel>)
      modifies this
      ensures unchanged(this)
    {
    }
  }

  /** Two reads in a row: after a successful first read the second makes no
      request and returns the cached list; after a raising one it asks again. */
  method ReadSongsTwice(a: MiguAlbumModel, albumSongs: (Option<string>, int, int) -> SongsResult)
    returns (first: Result<seq<SongModel>>, second: Result<seq<SongModel>>)
    requires a.cachedSongs.None?
    modifies a
    ensures first.Ok? ==>
      && second == first && a.cachedSongs == Some(first.value)
      && a.fetches == old(a.fetches) + [PageRequest(a.album.identifier, 1, PageSize)]
    ensures first.Err? ==>
      a.fetches == old(a.fetches) + [PageRequest(a.album.identifier, 1, PageSize), PageRequest(a.album.identifier, 1, PageSize)]
  {
    first := a.Songs(albumSongs);
    second := a.Songs(albumSongs);
  }

  // ------------------------------------------------------------ create_g

  /** `data.result.results` as the pager's `while` test and `for` loop see
      it: a missing list reads as empty. */
  function Rows(data: SongsResult): seq<SongDetail> {
    if data.result.Some? && data.result.value.results.Some? then data.result.value.results.value else []
  }

  /** The rows of page `p` of a listing. */
  function PageRows(func: (string, int, int) -> SongsResult, identifier: string, p: int): seq<SongDetail> {
    Rows(func(identifier, p, PageSize))
  }

  /** The rows of pages 1 to `n`, in page order. */
  ghost function RowsUpTo(func: (string, int, int) -> SongsResult, identifier: string, n: nat): seq<SongDetail> {
    if n == 0 then [] else RowsUpTo(func, identifier, n - 1) + PageRows(func, identifier, n)
  }

  /** The requests for pages 1 to `n`, in page order. */
  ghost function Requests(identifier: string, n: nat): seq<PageRequest<string>> {
    if n == 0 then [] else Requests(identifier, n - 1) + [PageRequest(identifier, n, PageSize)]
  }

  /** Every page before page `n` has rows. */
  ghost predicate EarlierPagesNonEmpty(func: (string, int, int) -> SongsResult, identifier: string, n: int) {
    forall p | 1 <= p < n :: PageRows(func, identifier, p) != []
  }

  /** The listing has been read to its end: page `page` is the first page
      without rows, and the rows consumed are exactly those of the pages
      before it. */
  ghost predicate EndedAt(func: (string, int, int) -> SongsResult, identifier: string, page: nat, consumed: seq<SongDetail>) {
    && page >= 1
    && EarlierPagesNonEmpty(func, identifier, page)
    && PageRows(func, identifier, page) == []
    && consumed == RowsUpTo(func, identifier, page - 1)
  }

  /** Consuming one more row of the current page. */
  lemma ConsumeStep<T>(done: seq<T>, xs: seq<T>, i: nat)
    requires i < |xs|
    ensures (done + xs[..i]) + [xs[i]] == done + xs[..i + 1]
  {
    assert xs[..i + 1] == xs[..i] + [xs[i]];
  }

  /** What one pull on the reader gives: the next song, the end, or an exception. */
  datatype Step = Yield(song: SongModel) | Exhausted | Raised(error: Error)

  /** `schema.model()` on one row, as a pull on the reader reports it. */
  method AdaptRow(row: SongDetail) returns (s: Step)
    ensures !s.Exhausted?
    ensures s.Yield? <==> SongDetailModel(row).Ok?
    ensures s.Yield? ==> SongDetailModel(row) == Ok(s.song)
    ensures s.Raised? ==> SongDetailModel(row) == Err(s.error)
  {
    var m := SongDetailModel(row);
    s := if m.Ok? then Yield(m.value) else Raised(m.error);
  }

  /** The lazy reader `create_g` returns: the declared total and the
      generator's state (the current page's envelope, the page number, the
      position in the page). */
  class SequentialReader {
    const func: (string, int, int) -> SongsResult
    const identifier: string
    /** The count the reader reports: page 1's `total_count`. */
    const count: Option<int>
    var data: SongsResult
    var page: nat
    var pos: nat
    var closed: bool
    /** The page requests made so far, in order. */
    ghost var requests: seq<PageRequest<string>>
    /** The rows whose `model()` has been taken so far, in order. */
    ghost var consumed: seq<SongDetail>

    ghost predicate Valid()
      reads this
    {
      && page >= 1
      && data == func(identifier, page, PageSize)
      && (!closed ==> data.result.Some?)
      && pos <= |Rows(data)|
      && requests == Requests(identifier, page)
      && EarlierPagesNonEmpty(func, identifier, page)
      && consumed == RowsUpTo(func, identifier, page - 1) + Rows(data)[..pos]
    }

    constructor (func: (string, int, int) -> SongsResult, identifier: string, first: SongsResult)
      requires first == func(identifier, 1, PageSize) && first.result.Some?
      ensures Valid() && !closed
      ensures this.func == func && this.identifier == identifier
      ensures count == first.result.value.totalCount
      ensures requests == [PageRequest(identifier, 1, PageSize)] && consumed == []
    {
      this.func := func;
      this.identifier := identifier;
      count := first.result.value.totalCount;
      data := first;
      page := 1;
      pos := 0;
      closed := false;
      requests := [PageRequest(identifier, 1, PageSize)];
      consumed := [];
    }

    /** One `next()` on the generator. A page is requested only after every row
        of the previous, non-empty page has been taken; the reader ends at the
        first page with no rows, whatever `count` says. */
    method Next() returns (s: Step)
      requires Valid()
      modifies this
      ensures Valid()
      ensures old(closed) ==> s == Exhausted && unchanged(this)
      ensures s.Yield? ==>
        && !closed && |consumed| == |old(consumed)| + 1
        && consumed == old(consumed) + [consumed[|consumed| - 1]]
        && SongDetailModel(consumed[|consumed| - 1]) == Ok(s.song)
      ensures s.Raised? ==>
        && !old(closed) && closed
        && ((&& |consumed| == |old(consumed)| + 1
             && consumed == old(consumed) + [consumed[|consumed| - 1]]
             && SongDetailModel(consumed[|consumed| - 1]) == Err(s.error))
            || (consumed == old(consumed) && data.result.None? && s.error == NoneHasNoAttribute("results")))
      ensures s.Exhausted? ==> closed && consumed == old(consumed)
      ensures s.Exhausted? && !old(closed) ==> EndedAt(func, identifier, page, consumed)
      ensures requests == old(requests)
        || (requests == old(requests) + [PageRequest(identifier, old(page) + 1, PageSize)]
            && old(pos) == |Rows(old(data))| > 0)
    {
      if closed {
        return Exhausted;
      }
      if pos == |Rows(data)| && pos > 0 {
        FetchNextPage();
        if closed {
          return Raised(NoneHasNoAttribute("results"));
        }
      }
      if Rows(data) == [] {
        closed := true;
        return Exhausted;
      }
      s := TakeRow();
    }

    /** The `for` loop is done with a non-empty page: request the next one.
        A page without `result` closes the reader. */
    method FetchNextPage()
      requires Valid() && !closed && pos == |Rows(data)| > 0
      modifies this
      ensures Valid()
      ensures page == old(page) + 1 && pos == 0 && consumed == old(consumed)
      ensures requests == old(requests) + [PageRequest(identifier, page, PageSize)]
      ensures closed <==> data.result.None?
    {
      var n := page;
      assert Rows(data)[..pos] == Rows(data);
      assert RowsUpTo(func, identifier, n) == RowsUpTo(func, identifier, n - 1) + PageRows(func, identifier, n);
      assert Requests(identifier, n + 1) == Requests(identifier, n) + [PageRequest(identifier, n + 1, PageSize)];
      assert EarlierPagesNonEmpty(func, identifier, n + 1) by {
        assert PageRows(func, identifier, n) != [];
      }
      var next := func(identifier, n + 1, PageSize);
      page, data, pos, closed := n + 1, next, 0, next.result.None?;
      requests := requests + [PageRequest(identifier, n + 1, PageSize)];
    }

    /** Take the next row of the current page and adapt it; an adapter that
        raises closes the reader. */
    method TakeRow() returns (s: Step)
      requires Valid() && !closed && pos < |Rows(data)|
      modifies this
      ensures Valid()
      ensures page == old(page) && requests == old(requests) && pos == old(pos) + 1
      ensures consumed == old(consumed) + [Rows(data)[old(pos)]]
      ensures !s.Exhausted?
      ensures s.Yield? ==> !closed && SongDetailModel(Rows(data)[old(pos)]) == Ok(s.song)
      ensures s.Raised? ==> closed && SongDetailModel(Rows(data)[old(pos)]) == Err(s.error)
    {
      var row := Rows(data)[pos];
      ConsumeStep(RowsUpTo(func, identifier, page - 1), Rows(data), pos);
      s := AdaptRow(row);
      pos, consumed, closed := pos + 1, consumed + [row], s.Raised?;
    }
  }

  /** The host's `for` loop over the reader, cut at `limit` songs: the songs
      come out as the models of the rows consumed, in order, and the loop
      ends early only when the reader has closed. */
  method ReadSongs(reader: SequentialReader, limit: nat) returns (songs: seq<SongModel>, failure: Option<Error>)
    requires reader.Valid()
    modifies reader
    ensures reader.Valid()
    ensures |songs| <= limit && (|songs| < limit ==> reader.closed)
    ensures failure.Some? ==> reader.closed
    ensures |old(reader.consumed)| + |songs| <= |reader.consumed|
    ensures reader.consumed[..|old(reader.consumed)|] == old(reader.consumed)
    ensures forall i | 0 <= i < |songs| ::
      SongDetailModel(reader.consumed[|old(reader.consumed)| + i]) == Ok(songs[i])
    ensures failure.None? ==> |reader.consumed| == |old(reader.consumed)| + |songs|
    ensures !old(reader.closed) && failure.None? && |songs| < limit ==>
      EndedAt(reader.func, reader.identifier, reader.page, reader.consumed)
  {
    songs, failure := [], None;
    ghost var before := reader.consumed;
    ghost var wasClosed := reader.closed;
    while |songs| < limit && !reader.closed
      invariant reader.Valid()
      invariant |songs| <= limit && (failure.Some? ==> reader.closed)
      invariant |before| <= |reader.consumed| && reader.consumed[..|before|] == before
      invariant failure.None? ==> |reader.consumed| == |before| + |songs|
      invariant !wasClosed && failure.None? && reader.closed ==>
        EndedAt(reader.func, reader.identifier, reader.page, reader.consumed)
      invariant AdaptedFrom(reader.consumed, |before|, songs)
      decreases limit - |songs|, !reader.closed
    {
      ghost var c := reader.consumed;
      var step := reader.Next();
      if step.Yield? {
        AdaptedExtend(c, |before|, songs, reader.consumed[|c|], step.song);
        songs := songs + [step.song];
      } else if step.Raised? {
        AdaptedKeep(c, |before|, songs, reader.consumed);
        failure := Some(step.error);
      }
    }
  }

  /** The songs are the models of the rows consumed from index `from` on. */
  ghost predicate AdaptedFrom(consumed: seq<SongDetail>, from: nat, songs: seq<SongModel>) {
    && from + |songs| <= |consumed|
    && forall i | 0 <= i < |songs| :: SongDetailModel(consumed[from + i]) == Ok(songs[i])
  }

  lemma AdaptedExtend(consumed: seq<SongDetail>, from: nat, songs: seq<SongModel>, row: SongDetail, song: SongModel)
    requires AdaptedFrom(consumed, from, songs) && |consumed| == from + |songs|
    requires SongDetailModel(row) == Ok(song)
    ensures AdaptedFrom(consumed + [row], from, songs + [song])
  {
  }

  lemma AdaptedKeep(consumed: seq<SongDetail>, from: nat, songs: seq<SongModel>, longer: seq<SongDetail>)
    requires AdaptedFrom(consumed, from, songs)
    requires |consumed| <= |longer| && longer[..|consumed|] == consumed
    ensures AdaptedFrom(longer, from, songs)
  {
    forall j | 0 <= j < |consumed| ensures longer[j] == consumed[j] {
      assert longer[..|consumed|][j] == longer[j];
    }
  }

  /** `create_g(func, identifier)`: page 1 is requested before anything is
      read, and its `total_count` becomes the reader's count. A page 1
      without a `result` raises at once. */
  method CreateG(func: (string, int, int) -> SongsResult, identifier: string) returns (r: Result<SequentialReader>)
    ensures r.Err? <==> func(identifier, 1, PageSize).result.None?
    ensures r.Err? ==> r.error == NoneHasNoAttribute("total_count")
    ensures r.Ok? ==>
      && fresh(r.value) && r.value.Valid() && !r.value.closed
      && r.value.func == func && r.value.identifier == identifier
      && r.value.count == func(identifier, 1, PageSize).result.value.totalCount
      && r.value.requests == [PageRequest(identifier, 1, PageSize)]
      && r.value.consumed == []
  {
    var data := func(identifier, 1, PageSize);
    if data.result.None? {
      return Err(NoneHasNoAttribute("total_count"));
    }
    var reader := new SequentialReader(func, identifier, data);
    return Ok(reader);
  }
}
