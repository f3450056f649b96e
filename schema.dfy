/**
 * The vendor's response shapes, already decoded, and the rules that turn
 * them into the host's domain models. Every field is optional: the vendor may
 * leave any of them out or send null. Field names are the snake_case names;
 * the wire names (`albumName`, `hasSQqq`, `videoUrlMap`, `songLists`, ...)
 * are the decoder's business.
 */
module Schema {
  import opened Wrappers
  import opened Text
  import opened Domain

  datatype Date = Date(year: int, month: int, day: int)

  /** The vendor's search-type codes. */
  datatype SearchType = Artist | Song | Album | Mv | Playlist

  /** The numeric value of each search type, sent as the `type` query parameter. */
  function Code(t: SearchType): (n: int)
    ensures FromCode(n) == Some(t)
  {
    match t
    case Artist => 1
    case Song => 2
    case Album => 4
    case Mv => 5
    case Playlist => 6
  }

  /** `SearchType(n)`: the search type with value `n`, if there is one. */
  function FromCode(n: int): (r: Option<SearchType>)
    ensures r.Some? <==> n == 1 || n == 2 || n == 4 || n == 5 || n == 6
  {
    if n == 1 then Some(Artist)
    else if n == 2 then Some(Song)
    else if n == 4 then Some(Album)
    else if n == 5 then Some(Mv)
    else if n == 6 then Some(Playlist)
    else None
  }

  /** Codes and search types are in one-to-one correspondence. */
  lemma CodeRoundTrip(t: SearchType, n: int)
    ensures FromCode(Code(t)) == Some(t)
    ensures FromCode(n) == Some(t) <==> Code(t) == n
  {
  }

  // ------------------------------------------------------------ search rows

  datatype SearchSong = SearchSong(
    id: Option<string>,
    albumName: Option<string>,
    albumId: Option<string>,
    copyrightId: Option<string>,
    mp3: Option<string>,
    songName: Option<string>,
    mvId: Option<string>,
    lyrics: Option<string>,
    mvCopyrightId: Option<string>,
    singerId: Option<string>,
    title: Option<string>,
    cover: Option<string>,
    hasMv: Option<bool>,
    singerName: Option<string>,
    hasSq: Option<bool>,
    hasHq: Option<bool>,
    artist: Option<string>)

  datatype SearchArtist = SearchArtist(
    id: Option<string>,
    fullSongTotal: Option<int>,
    title: Option<string>,
    albumNum: Option<int>,
    artistPicL: Option<string>,
    artistPicM: Option<string>,
    artistPicS: Option<string>,
    songNum: Option<int>,
    highlightStr: Option<seq<string>>)

  datatype Singer = Singer(id: Option<string>, name: Option<string>)

  datatype SearchAlbum = SearchAlbum(
    id: Option<string>,
    albumPicS: Option<string>,
    albumPicM: Option<string>,
    albumPicL: Option<string>,
    movieName: Option<seq<string>>,
    fullSongTotal: Option<int>,
    title: Option<string>,
    singer: Option<seq<Singer>>,
    songNum: Option<int>,
    publishDate: Option<Date>,
    highlightStr: Option<seq<string>>)

  datatype SearchPlaylist = SearchPlaylist(
    id: Option<string>,
    img: Option<string>,
    keepNum: Option<int>,
    musicNum: Option<int>,
    highlightStr: Option<seq<string>>,
    name: Option<string>,
    playNum: Option<int>,
    priority: Option<int>,
    shareNum: Option<int>,
    songlistType: Option<int>,
    userId: Option<string>)

  datatype SearchMv = SearchMv(
    id: Option<string>,
    albumName: Option<string>,
    albumId: Option<string>,
    copyrightId: Option<string>,
    songName: Option<string>,
    mvId: Option<string>,
    singerId: Option<string>,
    singerName: Option<string>,
    title: Option<string>,
    artist: Option<string>)

  // ------------------------------------------------------------ detail payloads

  datatype SongDetail = SongDetail(
    id: Option<string>,
    songName: Option<string>,
    copyrightId: Option<string>,
    lyricLrc: Option<string>,
    fanyiLrc: Option<string>,
    has24bit: Option<bool>,
    has3d: Option<bool>,
    hasHq: Option<bool>,
    hasSq: Option<bool>,
    hasMv: Option<bool>,
    listenUrl: Option<string>,
    mvCopyrightId: Option<string>,
    picL: Option<string>,
    picS: Option<string>,
    picM: Option<string>,
    singerId: Option<seq<string>>,
    singerName: Option<seq<string>>,
    songDesc: Option<string>,
    qq: Option<map<string, Json>>)

  datatype ArtistDetail = ArtistDetail(
    id: Option<int>,
    artistId: Option<string>,
    anotherName: Option<string>,
    artistName: Option<string>,
    artistPicL: Option<string>,
    artistPicS: Option<string>,
    artistPicM: Option<string>,
    localArtistPicL: Option<string>,
    localArtistPicS: Option<string>,
    localArtistPicM: Option<string>,
    awards: Option<string>,
    birthDate: Option<Date>,
    birthPlace: Option<string>,
    country: Option<string>,
    company: Option<string>,
    englishName: Option<string>,
    formerName: Option<string>,
    gender: Option<int>,
    height: Option<int>,
    hobby: Option<string>,
    intro: Option<string>,
    lover: Option<string>,
    nation: Option<string>,
    representWorks: Option<string>,
    school: Option<string>,
    similarArtist: Option<string>,
    weight: Option<int>)

  datatype AlbumDetail = AlbumDetail(
    id: Option<string>,
    albumId: Option<string>,
    albumIntro: Option<string>,
    albumName: Option<string>,
    albumPicL: Option<string>,
    albumPicS: Option<string>,
    albumPicM: Option<string>,
    localAlbumPicL: Option<string>,
    localAlbumPicS: Option<string>,
    localAlbumPicM: Option<string>,
    awards: Option<string>,
    language: Option<string>,
    publishCompany: Option<string>,
    productionCompany: Option<string>,
    publishDate: Option<Date>,
    singerId: Option<string>,
    trackCount: Option<int>)

  /** One key/value pair of an MV's URL map. */
  datatype MvKv = MvKv(key: Option<string>, value: Option<string>)

  datatype MvSchema = MvSchema(entry: Option<seq<MvKv>>)

  datatype MvDetail = MvDetail(
    copyrightId: Option<string>,
    contentName: Option<string>,
    actorName: Option<string>,
    videos: Option<MvSchema>)

  datatype PlaylistTag = PlaylistTag(tagid: Option<string>, tagName: Option<string>)

  datatype PlaylistDetail = PlaylistDetail(
    playlistId: Option<string>,
    playlistName: Option<string>,
    playlistType: Option<int>,
    summary: Option<string>,
    image: Option<string>,
    contentCount: Option<int>,
    channel: Option<int>,
    tagList: Option<seq<PlaylistTag>>)

  /** One page of a song listing; `currentPage` counts from 0. */
  datatype SongListSchema = SongListSchema(
    asc: Option<bool>,
    currentPage: Option<int>,
    pageSize: Option<int>,
    totalCount: Option<int>,
    results: Option<seq<SongDetail>>)

  datatype PlaylistSong = PlaylistSong(
    contentId: Option<string>,
    contentType: Option<string>,
    contentName: Option<string>,
    singerId: Option<string>,
    singerName: Option<string>,
    songId: Option<string>)

  // ------------------------------------------------------------ envelopes

  /** The metadata every search envelope carries. */
  datatype SearchMeta = SearchMeta(success: Option<bool>, keyword: Option<string>, pageNo: Option<int>, pgt: Option<int>)

  /** A search response: one envelope class per search type, each with its own list. */
  datatype SearchEnvelope =
    | SongSearchResult(meta: SearchMeta, musics: Option<seq<SearchSong>>)
    | ArtistSearchResult(meta: SearchMeta, artists: Option<seq<SearchArtist>>)
    | AlbumSearchResult(meta: SearchMeta, albums: Option<seq<SearchAlbum>>)
    | PlaylistSearchResult(meta: SearchMeta, playlists: Option<seq<SearchPlaylist>>)
    | MvSearchResult(meta: SearchMeta, mv: Option<seq<SearchMv>>)

  /** The envelope classes themselves, as `get_result_by_stype` hands them out. */
  datatype EnvelopeClass = SongSearchClass | ArtistSearchClass | AlbumSearchClass | PlaylistSearchClass | MvSearchClass

  function ClassOf(e: SearchEnvelope): EnvelopeClass {
    match e
    case SongSearchResult(_, _) => SongSearchClass
    case ArtistSearchResult(_, _) => ArtistSearchClass
    case AlbumSearchResult(_, _) => AlbumSearchClass
    case PlaylistSearchResult(_, _) => PlaylistSearchClass
    case MvSearchResult(_, _) => MvSearchClass
  }

  /** The name of the result list an envelope class declares. */
  function ListField(c: EnvelopeClass): string {
    match c
    case SongSearchClass => "musics"
    case ArtistSearchClass => "artists"
    case AlbumSearchClass => "albums"
    case PlaylistSearchClass => "playlists"
    case MvSearchClass => "mv"
  }

  /** The attributes an envelope class declares, so `hasattr` finds them. */
  function DeclaredFields(c: EnvelopeClass): set<string> {
    {"success", "keyword", "page_no", "pgt", ListField(c)}
  }

  datatype SongDetailResult = SongDetailResult(data: Option<SongDetail>)
  datatype ArtistDetailResult = ArtistDetailResult(data: Option<ArtistDetail>)
  datatype AlbumDetailResult = AlbumDetailResult(data: Option<AlbumDetail>)
  datatype MvDetailResult = MvDetailResult(data: Option<MvDetail>)

  /** The envelope of a song listing; the artist-songs and the album-songs
      envelopes have this same shape. */
  datatype SongsResult = SongsResult(result: Option<SongListSchema>)

  datatype PlaylistSongsResult = PlaylistSongsResult(code: Option<string>, info: Option<string>, contentList: Option<seq<PlaylistSong>>)

  datatype PlaylistResponse = PlaylistResponse(code: Option<string>, info: Option<string>, playlist: Option<seq<PlaylistDetail>>)
  datatype PlaylistDetailResult = PlaylistDetailResult(code: Option<int>, msg: Option<string>, rsp: Option<PlaylistResponse>)

  // ------------------------------------------------------------ get_result_by_stype

  /** The envelope class a search of type `t` is decoded into. */
  function GetResultByStype(t: SearchType): (c: EnvelopeClass)
    ensures t == Song <==> c == SongSearchClass
    ensures t == Artist <==> c == ArtistSearchClass
    ensures t == Album <==> c == AlbumSearchClass
    ensures t == Playlist <==> c == PlaylistSearchClass
    ensures t == Mv <==> c == MvSearchClass
  {
    match t
    case Song => SongSearchClass
    case Artist => ArtistSearchClass
    case Album => AlbumSearchClass
    case Playlist => PlaylistSearchClass
    case Mv => MvSearchClass
  }

  /** Distinct search types get distinct envelope classes. */
  lemma GetResultByStypeInjective(t1: SearchType, t2: SearchType)
    ensures GetResultByStype(t1) == GetResultByStype(t2) <==> t1 == t2
  {
  }

  // ------------------------------------------------------------ comma lists

  /** A comma-joined field read as a list: `None` or a blank string gives
      `[]`; otherwise the stripped string is split with `re.split(r',\s+', ...)`. */
  function CommaList(field: Option<string>): (r: seq<string>)
    ensures r == [] <==> field.None? || AllSpace(field.value)
    ensures field.Some? && !AllSpace(field.value) ==>
      (r == [Strip(field.value)] <==> !HasSeparator(Strip(field.value)))
  {
    match field
    case None => []
    case Some(v) =>
      var t := Strip(v);
      if t == "" then [] else SplitSingle(t); ReSplit(t)
  }

  /** The pieces of a comma list are the only ones that rebuild the stripped
      field around `,\s+` separators, leftmost first and greedy. */
  lemma CommaListIsRegexSplit(v: string, p: Pieces)
    requires !AllSpace(v)
    ensures IsRegexSplit(Strip(v), SplitWithSeparators(Strip(v)))
    ensures SplitWithSeparators(Strip(v)).parts == CommaList(Some(v))
    ensures IsRegexSplit(Strip(v), p) ==> p.parts == CommaList(Some(v))
  {
    SplitIsRegexSplit(Strip(v));
    if IsRegexSplit(Strip(v), p) {
      SplitUnique(Strip(v), p);
    }
  }

  /** A comma followed by whitespace separates, and the surrounding
      whitespace of the field is dropped first: `" 1, 2 "` is two ids. */
  lemma CommaListSplits()
    ensures CommaList(Some(" 1, 2 ")) == ["1", "2"]
  {
    var v := " 1, 2 ";
    assert SpaceRunEnd(v, 1) == 1;
    assert SpaceRunEnd(v, 0) == 1;
    assert SpaceRunStart(v, 5) == 5;
    assert SpaceRunStart(v, 6) == 5;
    assert v[1..5] == ['1', ',', ' ', '2'];
    CommaListPieces('1', '2');
  }

  /** `x, y` splits into its two one-character entries. */
  lemma CommaListPieces(x: char, y: char)
    requires !IsSpace(x) && !IsSpace(y)
    ensures ReSplit([x, ',', ' ', y]) == [[x], [y]]
  {
    var t := [x, ',', ' ', y];
    var p := Pieces([[x], [y]], [", "]);
    assert Join(p.parts, p.seps) == t;
    assert IsSeparator(", ") by {
      assert ", "[1..] == " ";
    }
    SplitUnique(t, p);
  }

  /** A comma not followed by whitespace does not separate: `"1,2"` is one id. */
  lemma CommaListKeepsBareComma()
    ensures CommaList(Some("1,2")) == ["1,2"]
  {
    StripIdentity("1,2");
    assert !SeparatorAt("1,2", 1);
    assert !HasSeparator("1,2");
    assert !AllSpace("1,2") by {
      assert !IsSpace("1,2"[0]);
    }
  }

  /** `SearchSong.artist_ids`. */
  function ArtistIds(s: SearchSong): (r: seq<string>)
    ensures r == [] <==> s.singerId.None? || AllSpace(s.singerId.value)
  {
    CommaList(s.singerId)
  }

  /** `SearchSong.artist_names`. */
  function ArtistNames(s: SearchSong): (r: seq<string>)
    ensures r == [] <==> s.singerName.None? || AllSpace(s.singerName.value)
  {
    CommaList(s.singerName)
  }

  function Min(a: int, b: int): int {
    if a <= b then a else b
  }

  /** `zip(ids, names)` turned into artists: the shorter list bounds the
      result and the i-th artist pairs the i-th id with the i-th name. */
  function ZipArtists(ids: seq<string>, names: seq<string>): (r: seq<ArtistModel>)
    ensures |r| == Min(|ids|, |names|)
    ensures forall i | 0 <= i < |r| :: r[i] == ArtistModel(Some(ids[i]), Some(names[i]), None, false)
  {
    if ids == [] || names == [] then []
    else [ArtistModel(Some(ids[0]), Some(names[0]), None, false)] + ZipArtists(ids[1..], names[1..])
  }

  // ------------------------------------------------------------ model() of the search rows

  /** `SearchSong.model()`: the artists pair the split ids with the split
      names positionally; the album is attached exactly when `album_id` is
      present. */
  function SearchSongModel(s: SearchSong): (r: SongModel)
    ensures r.identifier == s.copyrightId && r.title == s.title
    ensures |r.artists| == Min(|ArtistIds(s)|, |ArtistNames(s)|)
    ensures forall i | 0 <= i < |r.artists| ::
      r.artists[i] == ArtistModel(Some(ArtistIds(s)[i]), Some(ArtistNames(s)[i]), None, false)
    ensures r.album.None? <==> s.albumId.None?
    ensures r.album.Some? ==> r.album.value.identifier == s.albumId && r.album.value.name == s.albumName
  {
    SongModel(
      identifier := s.copyrightId,
      title := s.title,
      artists := ZipArtists(ArtistIds(s), ArtistNames(s)),
      album := if s.albumId.Some? then Some(AlbumModel(s.albumId, s.albumName, None, None, None)) else None,
      mvCpid := None, url := None, hasMv := None, qualities := None, contentId := None, lyric := None)
  }

  /** A search row listing two singers yields two artists, ids and names
      paired in order. */
  lemma SearchSongTwoArtists(s: SearchSong)
    requires s.singerId == Some(" 1, 2 ") && s.singerName == Some(" A, B")
    ensures SearchSongModel(s).artists ==
      [ArtistModel(Some("1"), Some("A"), None, false), ArtistModel(Some("2"), Some("B"), None, false)]
  {
    CommaListSplits();
    CommaListLeadingSpace();
  }

  /** With one name fewer than ids, `zip` drops the extra id. */
  lemma SearchSongZipTruncates(t: SearchSong)
    requires t.singerId == Some(" 1, 2 ") && t.singerName == Some("A")
    ensures SearchSongModel(t).artists == [ArtistModel(Some("1"), Some("A"), None, false)]
  {
    CommaListSplits();
    CommaListSingle();
  }

  lemma CommaListLeadingSpace()
    ensures CommaList(Some(" A, B")) == ["A", "B"]
  {
    var n := " A, B";
    assert SpaceRunEnd(n, 1) == 1;
    assert SpaceRunEnd(n, 0) == 1;
    assert SpaceRunStart(n, 5) == 5;
    assert n[1..5] == ['A', ',', ' ', 'B'];
    CommaListPieces('A', 'B');
  }

  lemma CommaListSingle()
    ensures CommaList(Some("A")) == ["A"]
  {
    StripIdentity("A");
    assert !AllSpace("A") by { assert !IsSpace("A"[0]); }
  }

  /** `SearchArtist.model()`: a provider-bound artist with its medium picture. */
  function SearchArtistModel(a: SearchArtist): (r: ArtistModel)
    ensures r.bound
    ensures r.identifier == a.id && r.name == a.title && r.cover == a.artistPicM
  {
    ArtistModel(a.id, a.title, a.artistPicM, true)
  }

  /** `Singer.model()`: the host's provider-less artist, without a cover. */
  function SingerModel(s: Singer): (r: ArtistModel)
    ensures !r.bound && r.cover.None?
    ensures r.identifier == s.id && r.name == s.name
  {
    ArtistModel(s.id, s.name, None, false)
  }

  /** `SearchAlbum.model()`: iterating a missing `singer` list raises. */
  function SearchAlbumModel(a: SearchAlbum): (r: Result<AlbumModel>)
    ensures r.Err? <==> a.singer.None?
    ensures r.Ok? ==>
      && r.value.identifier == a.id && r.value.name == a.title && r.value.cover == a.albumPicM
      && r.value.artists.Some? && |r.value.artists.value| == |a.singer.value|
      && (forall i | 0 <= i < |a.singer.value| :: r.value.artists.value[i] == SingerModel(a.singer.value[i]))
  {
    match a.singer
    case None => Err(NoneNotIterable("singer"))
    case Some(singers) =>
      Ok(AlbumModel(a.id, a.title, a.albumPicM, None, Some(seq(|singers|, i requires 0 <= i < |singers| => SingerModel(singers[i])))))
  }

  /** `SearchPlaylist.model()`: the cover is the row's `img`. */
  function SearchPlaylistModel(p: SearchPlaylist): (r: PlaylistModel)
    ensures r.identifier == p.id && r.name == p.name && r.cover == p.img
  {
    PlaylistModel(p.id, p.name, p.img)
  }

  /** `SearchMv.model()`: a video named by its copyright id. */
  function SearchMvModel(m: SearchMv): (r: VideoModel)
    ensures r.identifier == m.copyrightId && r.title == m.title
  {
    VideoModel(m.copyrightId, m.title)
  }

  /** Only the artists a search returns are provider-bound: those inside a
      song or an album row are the host's plain artists. */
  lemma ArtistProviders(ar: SearchArtist, s: SearchSong, al: SearchAlbum, d: SongDetail)
    ensures SearchArtistModel(ar).bound
    ensures forall i | 0 <= i < |SearchSongModel(s).artists| :: !SearchSongModel(s).artists[i].bound
    ensures SearchAlbumModel(al).Ok? ==>
      forall i | 0 <= i < |SearchAlbumModel(al).value.artists.value| :: !SearchAlbumModel(al).value.artists.value[i].bound
    ensures SongDetailModel(d).Ok? ==>
      forall i | 0 <= i < |SongDetailModel(d).value.artists| :: !SongDetailModel(d).value.artists[i].bound
  {
  }

  /** Which vendor field becomes the identifier of each search row's model:
      the copyright id for songs and videos, the row id for the others. */
  lemma SearchRowIdentifiers(s: SearchSong, ar: SearchArtist, al: SearchAlbum, p: SearchPlaylist, m: SearchMv)
    ensures SearchSongModel(s).identifier == s.copyrightId
    ensures SearchArtistModel(ar).identifier == ar.id && SearchArtistModel(ar).cover == ar.artistPicM
    ensures SearchAlbumModel(al).Ok? ==> SearchAlbumModel(al).value.identifier == al.id
    ensures SearchPlaylistModel(p).identifier == p.id && SearchPlaylistModel(p).cover == p.img
    ensures SearchMvModel(m).identifier == m.copyrightId && SearchMvModel(m).title == m.title
  {
  }

  // ------------------------------------------------------------ SongDetail

  /** `SongDetail.content_id`: the `productId` entry of the `qq` blob, or `''`. */
  function ContentId(d: SongDetail): (r: Json)
    ensures r != JStr("") ==> d.qq.Some? && "productId" in d.qq.value && d.qq.value["productId"] == r
  {
    match d.qq
    case None => JStr("")
    case Some(blob) => if "productId" in blob then blob["productId"] else JStr("")
  }

  /** The content id is read back from wherever `productId` was put, and is
      `''` when the blob or the key is missing. */
  lemma ContentIdCases(d: SongDetail, blob: map<string, Json>, v: Json)
    ensures d.qq.None? ==> ContentId(d) == JStr("")
    ensures d.qq.Some? && "productId" !in d.qq.value ==> ContentId(d) == JStr("")
    ensures ContentId(d.(qq := Some(blob["productId" := v]))) == v
  {
  }

  /** The order of the quality tiers, best first. */
  function TierRank(q: string): nat {
    if q == "shq" then 0 else if q == "hq" then 1 else if q == "sq" then 2 else if q == "lq" then 3 else 4
  }

  lemma TierRanks()
    ensures TierRank("shq") == 0 && TierRank("hq") == 1 && TierRank("sq") == 2 && TierRank("lq") == 3
  {
    assert "hq" != "shq" by { assert |"hq"| != |"shq"|; }
    assert "sq" != "shq" by { assert |"sq"| != |"shq"|; }
    assert "sq" != "hq" by { assert "sq"[0] != "hq"[0]; }
    assert "lq" != "shq" by { assert |"lq"| != |"shq"|; }
    assert "lq" != "hq" by { assert "lq"[0] != "hq"[0]; }
    assert "lq" != "sq" by { assert "lq"[0] != "sq"[0]; }
  }

  /** The quality tiers of a song: `shq` if `has_sq` is set, `hq` if `has_hq`
      is set, then always `sq` and `lq`. Its properties are the lemmas below. */
  function Qualities(hasSq: Option<bool>, hasHq: Option<bool>): (r: seq<string>)
    ensures "sq" in r && "lq" in r
  {
    (if hasSq == Some(true) then ["shq"] else [])
    + (if hasHq == Some(true) then ["hq"] else [])
    + ["sq", "lq"]
  }

  /** The four tier lists there can be. */
  lemma QualitiesCases(hasSq: Option<bool>, hasHq: Option<bool>)
    ensures var r := Qualities(hasSq, hasHq);
      && (hasSq == Some(true) && hasHq == Some(true) ==> r == ["shq", "hq", "sq", "lq"])
      && (hasSq == Some(true) && hasHq != Some(true) ==> r == ["shq", "sq", "lq"])
      && (hasSq != Some(true) && hasHq == Some(true) ==> r == ["hq", "sq", "lq"])
      && (hasSq != Some(true) && hasHq != Some(true) ==> r == ["sq", "lq"])
  {
  }

  /** Two to four tiers, always ending with `sq`, `lq`. */
  lemma QualitiesShape(hasSq: Option<bool>, hasHq: Option<bool>)
    ensures var r := Qualities(hasSq, hasHq);
      2 <= |r| <= 4 && r[|r| - 2..] == ["sq", "lq"]
  {
    QualitiesCases(hasSq, hasHq);
  }

  /** `shq` is offered iff `has_sq` is truthy, `hq` iff `has_hq` is. */
  lemma QualitiesMembership(hasSq: Option<bool>, hasHq: Option<bool>)
    ensures "shq" in Qualities(hasSq, hasHq) <==> hasSq == Some(true)
    ensures "hq" in Qualities(hasSq, hasHq) <==> hasHq == Some(true)
  {
    TierRanks();
    QualitiesCases(hasSq, hasHq);
  }

  /** Every entry is a known tier and the tiers come best first: shq, hq, sq, lq. */
  lemma QualitiesOrder(hasSq: Option<bool>, hasHq: Option<bool>)
    ensures var r := Qualities(hasSq, hasHq);
      && (forall i | 0 <= i < |r| :: TierRank(r[i]) < 4)
      && (forall i, j | 0 <= i < j < |r| :: TierRank(r[i]) < TierRank(r[j]))
  {
    TierRanks();
    QualitiesCases(hasSq, hasHq);
  }

  /** Tiers strictly ordered by rank never repeat. */
  lemma QualitiesDistinct(hasSq: Option<bool>, hasHq: Option<bool>)
    ensures var r := Qualities(hasSq, hasHq);
      forall i, j | 0 <= i < j < |r| :: r[i] != r[j]
  {
    QualitiesOrder(hasSq, hasHq);
  }

  /** `SongDetail.model()`. `zip` raises when either singer list is missing. */
  function SongDetailModel(d: SongDetail): (r: Result<SongModel>)
    ensures r.Err? <==> d.singerId.None? || d.singerName.None?
    ensures r.Ok? ==>
      && r.value.identifier == d.copyrightId
      && r.value.title == d.songName
      && r.value.mvCpid == d.mvCopyrightId && r.value.url == d.listenUrl
      && r.value.artists == ZipArtists(d.singerId.value, d.singerName.value)
      && r.value.qualities == Some(Qualities(d.hasSq, d.hasHq))
      && r.value.hasMv == Some(d.hasMv == Some(true))
      && r.value.contentId == Some(ContentId(d))
      && r.value.lyric == Some(LyricModel(d.copyrightId, d.lyricLrc, d.fanyiLrc))
  {
    if d.singerId.None? || d.singerName.None? then Err(NoneNotIterable("singer"))
    else
      Ok(SongModel(
        identifier := d.copyrightId,
        title := d.songName,
        artists := ZipArtists(d.singerId.value, d.singerName.value),
        album := None,
        mvCpid := d.mvCopyrightId,
        url := d.listenUrl,
        hasMv := Some(d.hasMv == Some(true)),
        qualities := Some(Qualities(d.hasSq, d.hasHq)),
        contentId := Some(ContentId(d)),
        lyric := Some(LyricModel(d.copyrightId, d.lyricLrc, d.fanyiLrc))))
  }

  // ------------------------------------------------------------ AlbumDetail

  /** `AlbumDetail.model()`: the description falls back to `''`; the cover is
      the local medium picture. */
  function AlbumDetailModel(d: AlbumDetail): (r: AlbumModel)
    ensures r.identifier == d.albumId && r.name == d.albumName && r.cover == d.localAlbumPicM
    ensures r.desc.Some?
    ensures r.desc.value == "" <==> d.albumIntro.None? || d.albumIntro.value == ""
    ensures d.albumIntro.Some? ==> r.desc == d.albumIntro
  {
    AlbumModel(d.albumId, d.albumName, d.localAlbumPicM, Some(d.albumIntro.GetOr("")), None)
  }

  // ------------------------------------------------------------ MvDetail

  /** Python truthiness of an optional string. */
  predicate Truthy(v: Option<string>) {
    v.Some? && v.value != ""
  }

  /** The first truthy value in the list, scanning in order. */
  function FirstNonEmpty(entries: seq<MvKv>): (r: Option<string>)
    ensures r.None? <==> forall k | 0 <= k < |entries| :: !Truthy(entries[k].value)
    ensures r.Some? ==> r.value != ""
  {
    if entries == [] then None
    else if Truthy(entries[0].value) then entries[0].value
    else FirstNonEmpty(entries[1..])
  }

  /** The entry FirstNonEmpty picks is the first truthy one. */
  lemma {:induction false} FirstNonEmptyAt(entries: seq<MvKv>, i: nat)
    requires i < |entries| && Truthy(entries[i].value)
    requires forall k | 0 <= k < i :: !Truthy(entries[k].value)
    ensures FirstNonEmpty(entries) == entries[i].value
  {
    if i > 0 {
      FirstNonEmptyAt(entries[1..], i - 1);
    }
  }

  /** The entries the `url` property scans: none unless both `videos` and a
      non-empty `entry` list are present. */
  function UrlEntries(d: MvDetail): seq<MvKv> {
    if d.videos.Some? && d.videos.value.entry.Some? then d.videos.value.entry.value else []
  }

  /** `MvDetail.url` as a value. */
  function MvUrl(d: MvDetail): (r: Option<string>)
    ensures r.None? <==> forall k | 0 <= k < |UrlEntries(d)| :: !Truthy(UrlEntries(d)[k].value)
    ensures d.videos.None? ==> r.None?
  {
    FirstNonEmpty(UrlEntries(d))
  }

  /** `MvDetail.url`: the loop over `videos.entry` with its early return. */
  method Url(d: MvDetail) returns (u: Option<string>)
    ensures u == MvUrl(d)
    ensures u.None? <==> forall k | 0 <= k < |UrlEntries(d)| :: !Truthy(UrlEntries(d)[k].value)
  {
    if d.videos.Some? && d.videos.value.entry.Some? && d.videos.value.entry.value != [] {
      var entries := d.videos.value.entry.value;
      var i := 0;
      while i < |entries|
        invariant 0 <= i <= |entries|
        invariant forall k | 0 <= k < i :: !Truthy(entries[k].value)
      {
        if Truthy(entries[i].value) {
          FirstNonEmptyAt(entries, i);
          return entries[i].value;
        }
        i := i + 1;
      }
    }
    return None;
  }

  /** `MvDetail.model()`: no model at all when there is no usable URL. */
  function MvDetailModel(d: MvDetail): (r: Option<MvModel>)
    ensures r.None? <==> MvUrl(d).None?
    ensures r.Some? ==> r.value == MvModel(d.copyrightId, d.contentName, d.actorName, Media(MvUrl(d).value, None, None))
  {
    match MvUrl(d)
    case None => None
    case Some(url) => Some(MvModel(d.copyrightId, d.contentName, d.actorName, Media(url, None, None)))
  }

  // ------------------------------------------------------------ SongListSchema

  /** `SongListSchema.page`: the 1-based page number, 0 when unknown. */
  function Page(s: SongListSchema): (p: int)
    ensures s.currentPage.Some? ==> p - 1 == s.currentPage.value
    ensures s.currentPage.None? ==> p == 0
  {
    if s.currentPage.None? then 0 else s.currentPage.value + 1
  }

  /** The service asks for page `p` as `pageNo = p - 1`; a schema echoing that
      page number reads back as page `p`. */
  lemma PageRoundTrip(s: SongListSchema, p: int)
    ensures s.currentPage == Some(p - 1) ==> Page(s) == p
    ensures s.currentPage.None? ==> Page(s) == 0
  {
  }
}
