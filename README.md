# feeluown-migu, modelled in Dafny

This project models the core of feeluown-migu, the Migu Music provider plugin
for the FeelUOwn player. It covers two layers:

- **The response-schema layer** (`fuo_migu/schema.py`). Each vendor JSON shape
  is a record whose fields are all optional, modelled as a datatype with
  `Option` fields. The rules that turn those records into the host's domain
  models are functions:
  - comma-list splitting of singer ids and names (`str.strip`, then
    `re.split(r',\s+', ...)`);
  - positional zipping of ids with names;
  - the quality-tier list;
  - `content_id`;
  - MV URL selection;
  - the page-number conversion;
  - the dispatch from search type to result envelope.
- **The model and dispatch layer** (`fuo_migu/models.py`):
  - the lazy song-list pager `create_g`, a class `SequentialReader` stepped by
    `Next`;
  - the set-once song cache of an album, a class `MiguAlbumModel` whose
    `Songs` getter fills `cachedSongs`;
  - the search dispatcher, with its field table and host-type mapping;
  - the media format and bitrate choice of a song.

Files:

- `wrappers.dfy`: `Option`, `Result`, and the exceptions the plugin lets
  escape, as values.
- `text.dfy`: Python's `str.strip` and `re.split(r',\s+', s)` over `seq<char>`.
  The whitespace class is Python's `str.isspace` set, which is the set `\s`
  matches in a `str` pattern. The split is proved to be the only decomposition
  that rebuilds the input around leftmost, greedy `,\s+` matches.
- `domain.dfy`: the host player's models (`SongModel`, `AlbumModel`, ...), as
  records.
- `schema.dfy`: the vendor records and their `model()` adapters.
- `models.dfy`: quality and media choice, search, the album cache, and the
  pager.

Every call into the vendor's HTTP service is a function parameter:

- `api` for `search`;
- `func` for a listing page;
- `albumSongs` for `album_songs`;
- `getSongMedia` for `get_song_media`.

Each such parameter is a pure function of its arguments.

The model follows the code where the code raises on a missing field. The
plugin's adapters are meant to tolerate absent fields, but the code does not
always do so, and the model raises (returns `Err`) in these cases:

- `SongDetail.model` zips `singer_id` with `singer_name`, and `zip(None, ...)`
  raises `TypeError`.
- `SearchAlbum.model` iterates `singer`, and raises when it is missing.
- `search_by_type` iterates the selected envelope list, and raises when it is
  missing.
- `create_g` reads `data.result.total_count` before its `data is None` guard
  can act. A page 1 without `result` raises `AttributeError`, and the guard
  inside the generator is never reached.
- `MiguAlbumModel.songs` reads `result.result.results`.
- The class methods `get` read `result.data`.

The pager stops at the first page with no rows, not at `total_count`. It also
ends, without an error, when a page's `results` is missing.

## Model

| member | source | states |
|---|---|---|
| Text.Strip | fuo_migu/schema.py:44-46 | `str.strip()`: no leading or trailing whitespace is left; the result is empty iff the input is all whitespace; otherwise it is the infix of the input outside which every character is whitespace |
| Text.SplitWithSeparators | fuo_migu/schema.py:47 | `re.split(r',\s+', s)` with the matches kept: one more piece than separators, the first piece a prefix of `s`; its full specification is SplitIsRegexSplit and SplitUnique |
| Text.ReSplit | fuo_migu/schema.py:47 | the list `re.split(r',\s+', s)` returns: never empty, its first piece a prefix of `s`; it is `[s]` iff SplitSingle says so, and the pieces of the unique regex split otherwise |
| Text.SplitSingle | fuo_migu/schema.py:47 | `re.split(r',\s+', s)` returns `[s]` exactly when `s` holds no comma followed by whitespace |
| Text.SplitIsRegexSplit | fuo_migu/schema.py:47 | the pieces of the split, with the matched separators between them, rebuild `s`; every separator is a comma and a whitespace run; no piece holds a match; no piece after a separator starts with whitespace (greedy `\s+`) |
| Text.SplitUnique | fuo_migu/schema.py:47 | any decomposition with the properties above is the split, so those properties fully specify `re.split(r',\s+', s)` |
| Schema.Code | fuo_migu/schema.py:13-18 | the enum value of a search type, which reads back to that type |
| Schema.FromCode | fuo_migu/schema.py:13-18 | `SearchType(n)` exists iff `n` is 1, 2, 4, 5 or 6 |
| Schema.CodeRoundTrip | fuo_migu/schema.py:13-18 | the enum values 1, 2, 4, 5, 6 and the five search types are in one-to-one correspondence |
| Schema.CommaList | fuo_migu/schema.py:40-56 | `artist_ids`/`artist_names`: `[]` iff the field is `None` or blank after `strip`; a present, non-blank field gives the one-element list of its stripped value iff that value holds no comma followed by whitespace |
| Schema.CommaListIsRegexSplit | fuo_migu/schema.py:44-47 | a non-blank field's list is the regex split of the stripped field, and the only one with the regex-split properties |
| Schema.CommaListSplits | fuo_migu/schema.py:40-47 | `" 1, 2 "` reads as `["1", "2"]`: strip first, then split at comma and space |
| Schema.CommaListPieces | fuo_migu/schema.py:47 | `"x, y"`, for non-whitespace characters `x` and `y`, splits into `["x", "y"]` |
| Schema.CommaListKeepsBareComma | fuo_migu/schema.py:44-47 | `"1,2"`, a comma without whitespace after it, stays a single id |
| Schema.ArtistIds | fuo_migu/schema.py:40-47 | `artist_ids`: `[]` iff `singer_id` is missing or blank; the list itself is CommaList of the field |
| Schema.ArtistNames | fuo_migu/schema.py:49-56 | `artist_names`: `[]` iff `singer_name` is missing or blank; the list itself is CommaList of the field |
| Schema.ZipArtists | fuo_migu/schema.py:59-60 | `zip(ids, names)`: the shorter list bounds the result, and the i-th artist pairs the i-th id with the i-th name |
| Schema.SearchSongModel | fuo_migu/schema.py:58-64 | a search song has exactly min(\|artist_ids\|, \|artist_names\|) artists, paired positionally; its album is absent iff `album_id` is, and otherwise carries `album_id` and `album_name`; identifier and title come from `copyright_id` and `title` |
| Schema.SearchSongTwoArtists | fuo_migu/schema.py:40-64 | singer ids `" 1, 2 "` with names `" A, B"` give the artists (1, A) and (2, B) |
| Schema.SearchSongZipTruncates | fuo_migu/schema.py:40-64 | singer ids `" 1, 2 "` with the single name `"A"` give only the artist (1, A): `zip` drops the extra id |
| Schema.CommaListLeadingSpace | fuo_migu/schema.py:49-56 | `" A, B"` reads as `["A", "B"]` |
| Schema.CommaListSingle | fuo_migu/schema.py:49-56 | `"A"` reads as `["A"]` |
| Schema.SearchArtistModel | fuo_migu/schema.py:78-79 | a search artist is a provider-bound `MiguArtistModel` with id, title as name, and the medium picture as cover |
| Schema.SingerModel | fuo_migu/schema.py:87-88 | a singer of an album row is the host's provider-less `ArtistModel`, with id and name and no cover |
| Schema.SearchAlbumModel | fuo_migu/schema.py:102-104 | an album search row raises iff its `singer` list is missing; otherwise it keeps id, title and the medium picture, and maps each singer to an artist, in order |
| Schema.SearchPlaylistModel | fuo_migu/schema.py:120-121 | a search playlist keeps id and name, with `img` as its cover |
| Schema.SearchMvModel | fuo_migu/schema.py:136-137 | a search MV is a video with `copyright_id` as its id and its `title` |
| Schema.ArtistProviders | fuo_migu/schema.py:59-60 | only the artists a search returns are provider-bound; the artists inside a song, an album row or a song detail are the host's plain `ArtistModel` (schema.py:59, 88, 168) |
| Schema.SearchRowIdentifiers | fuo_migu/schema.py:78-137 | each search row's `model()` takes its identifier and cover or title from the fields the source names: song `copyright_id`; artist `id` and `artist_pic_m`; album `id`; playlist `id` and `img`; MV `copyright_id` and `title` |
| Schema.ContentId | fuo_migu/schema.py:161-165 | `content_id`: any value other than `''` is the `productId` stored in `qq`; ContentIdCases gives the cases |
| Schema.ContentIdCases | fuo_migu/schema.py:161-165 | `content_id` is `''` when `qq` is missing or has no `productId`, and is whatever `productId` holds otherwise |
| Schema.Qualities | fuo_migu/schema.py:170-176 | the tier list always offers `sq` and `lq`; its shape, membership, order and distinctness are QualitiesCases to QualitiesDistinct |
| Schema.QualitiesCases | fuo_migu/schema.py:170-176 | the tier list is one of `[shq, hq, sq, lq]`, `[shq, sq, lq]`, `[hq, sq, lq]`, `[sq, lq]`, as the two flags are truthy or not |
| Schema.QualitiesShape | fuo_migu/schema.py:170-176 | the tier list has 2 to 4 entries and ends with `sq`, `lq` |
| Schema.QualitiesMembership | fuo_migu/schema.py:170-176 | the tier list holds `shq` iff `has_sq` is truthy and `hq` iff `has_hq` is truthy |
| Schema.QualitiesOrder | fuo_migu/schema.py:170-176 | every entry is a known tier, and tiers appear in the order shq, hq, sq, lq |
| Schema.QualitiesDistinct | fuo_migu/schema.py:170-176 | the tier list has no duplicates |
| Schema.SongDetailModel | fuo_migu/schema.py:167-183 | raises iff `singer_id` or `singer_name` is missing; otherwise the song zips the two lists into artists, lists the tiers, sets `has_mv` to `False` when the flag is absent, and carries `content_id`, the URL, the MV id and the lyric |
| Schema.AlbumDetailModel | fuo_migu/schema.py:235-237 | the description is `''` iff `album_intro` is missing or empty, and is `album_intro` otherwise; id, name and cover come from `album_id`, `album_name` and `local_album_pic_m` |
| Schema.MvUrl | fuo_migu/schema.py:253-259 | `url`: "no URL" iff no entry of `videos.entry` has a non-empty value, and always when `videos` is missing; FirstNonEmptyAt says which value is chosen |
| Schema.FirstNonEmpty | fuo_migu/schema.py:253-259 | the first non-empty `value` of the entries, and "no URL" iff every value is missing or empty |
| Schema.FirstNonEmptyAt | fuo_migu/schema.py:253-259 | if entry `i` is the first with a non-empty value, the URL is that value |
| Schema.Url | fuo_migu/schema.py:253-259 | the loop with early return computes the same URL, and gives "no URL" when `videos` or `entry` is missing or empty |
| Schema.MvDetailModel | fuo_migu/schema.py:261-266 | no model iff there is no URL; otherwise the MV's media is that URL, with id, name and description from `copyright_id`, `content_name` and `actor_name` |
| Schema.Page | fuo_migu/schema.py:292-296 | `page` is one more than `current_page`, or 0 when it is missing |
| Schema.PageRoundTrip | fuo_migu/schema.py:292-296 | `page` is `current_page + 1`, or 0 when `current_page` is missing |
| Schema.GetResultByStype | fuo_migu/schema.py:378-396 | each of the five search types maps to its own envelope class (song→Song, artist→Artist, album→Album, playlist→Playlist, mv→Mv) |
| Schema.GetResultByStypeInjective | fuo_migu/schema.py:378-396 | distinct search types map to distinct envelope classes |
| Models.ListQuality | fuo_migu/models.py:49-50 | `list_quality` returns the song's stored tier list; for a song built from a detail payload, ListQualityOfDetail says what that list is |
| Models.ListQualityOfDetail | fuo_migu/models.py:49-50 | `list_quality` of a song adapted from a detail payload is that payload's tier list: it ends with `sq`, `lq` and holds `shq` and `hq` as the flags say |
| Models.GetMedia | fuo_migu/models.py:52-56 | the URL is the service's answer for (identifier, content id, quality); format `2000kflac` and bitrate `2000` iff the quality is `shq`, and `320kmp3`/`320` otherwise |
| Models.GetSong | fuo_migu/models.py:44-47 | `MiguSongModel.get`: raises when `data` is missing, and is the detail's `model()` otherwise |
| Models.GetAlbum | fuo_migu/models.py:68-71 | `MiguAlbumModel.get`: raises when `data` is missing, and is the detail's `model()` otherwise |
| Models.ModelAll | fuo_migu/models.py:127-128 | adapting a list succeeds iff every element adapts, and then keeps the length and order |
| Models.ModelAllFirstError | fuo_migu/models.py:127-128 | when adapting a list fails, the error is that of the first element that fails |
| Models.ModelEach | fuo_migu/models.py:127-128 | the append loop computes the same result as adapting the whole list |
| Models.ProviderSearchType | fuo_migu/models.py:132-146 | host types so/al/ar/pl/vi map to song/album/artist/playlist/mv, one to one, and every other host type is unsupported |
| Models.SearchFields | fuo_migu/models.py:107-124 | the `field`/`rfield` table: the list it reads is the list field of the class `get_result_by_stype` decodes into; SearchFieldsMatchEnvelopes gives the rest |
| Models.SearchFieldsMatchEnvelopes | fuo_migu/models.py:110-126 | the field the table reads is the list field of the envelope class `get_result_by_stype` picks, and no other class declares it; distinct types fill distinct output fields |
| Models.SearchOutcome | fuo_migu/models.py:125-129 | what `search_by_type` makes of the envelope: a success needs the table's field declared and its list present; SearchErrors, SearchFieldNotFound, SearchListMissing and SearchFillsTableField give the full outcome |
| Models.SearchByType | fuo_migu/models.py:105-129 | exactly one search request, for page 1 of 30 rows, then the outcome of the field table, the `hasattr` test and the adaptation of every row |
| Models.Search | fuo_migu/models.py:132-147 | an unsupported host type raises 'unsupported search' and makes no request; the others make the one request of `search_by_type` with the mapped type |
| Models.SearchFieldNotFound | fuo_migu/models.py:125-126 | a search raises 'field not found' iff the envelope is not of the class the search type is decoded into |
| Models.SearchErrors | fuo_migu/models.py:125-128 | the only errors a search lets escape are 'field not found', a missing envelope list, and an album row without singers |
| Models.SearchListMissing | fuo_migu/models.py:127 | given the right envelope class, iterating a missing list raises `TypeError`, and no other case raises that error |
| Models.AlbumSearchRowRaises | fuo_migu/models.py:127-128 | an album search raises as soon as one row has no singer list |
| Models.SearchFillsTableField | fuo_migu/models.py:127-129 | a successful search fills exactly the output field the table names, with one model per envelope row, in the envelope's order |
| Models.AlbumSongsOf | fuo_migu/models.py:77 | the album's first page adapted: raises when `result` or `results` is missing, and otherwise is the `model()` of every row, in order |
| Models.MiguAlbumModel.constructor | fuo_migu/models.py:63-66 | a new album starts with no cached songs and no requests made |
| Models.MiguAlbumModel.Songs | fuo_migu/models.py:73-78 | with songs cached, returns them and makes no request; otherwise makes exactly one `album_songs(identifier, 1, 30)` request and caches the adapted list, even an empty one, unless adapting raised |
| Models.MiguAlbumModel.SetSongs | fuo_migu/models.py:80-82 | assigning `songs` changes nothing |
| Models.ReadSongsTwice | fuo_migu/models.py:73-78 | after a successful first read, the second read returns the same list and makes no request; after a raising one, it requests again |
| Models.SequentialReader.constructor | fuo_migu/models.py:11-13 | the reader starts on page 1, already fetched, with its count being page 1's `total_count` |
| Models.SequentialReader.Next | fuo_migu/models.py:15-25 | each pull yields the model of the next row, in page order. The next page is requested only after every row of the current, non-empty page has been taken. The reader ends at the first page with no rows, whatever the count says, and closes for good after an exception. The rows consumed are always pages 1 to k-1 and a prefix of page k, and the requests are always for pages 1 to k, consecutively. A pull that ends the reader leaves it at the first empty page with exactly the rows of the pages before it consumed |
| Models.SequentialReader.FetchNextPage | fuo_migu/models.py:24-25 | the next page number is requested after a non-empty page; a page without `result` closes the reader |
| Models.AdaptRow | fuo_migu/models.py:23 | a pull yields the row's `model()` when adapting succeeds and reports its exception otherwise |
| Models.SequentialReader.TakeRow | fuo_migu/models.py:22-23 | the next row of the page is consumed and adapted; a raising adapter closes the reader |
| Models.ReadSongs | fuo_migu/models.py:15-27 | reading up to `limit` songs gives the models of the rows consumed, in order, and stops early only when the reader has closed. Without an exception, one song is yielded per row consumed, and a read of an open reader that stops short has read the listing to its end: page k is the first empty page and the rows consumed are exactly those of pages 1 to k-1 |
| Models.CreateG | fuo_migu/models.py:11-27 | page 1 (page size 30) is requested before anything is read; it raises iff page 1 has no `result`; otherwise the reader's count is page 1's `total_count` and nothing is consumed yet |

## Left out

- The HTTP client (`fuo_migu/service.py`) is network I/O. Its requests are
  function parameters, each a pure function of its arguments. Retries,
  status checks and the debug output are not modelled.
- `get_song_media`, `album_detail` and `album_songs` are not defined in the
  service module. `get_song_media` and `album_songs` are function parameters,
  and `MiguAlbumModel.get` takes the decoded `album_detail` result. The
  service's `song_detail` is network I/O like the rest of the client:
  `Models.GetSong` takes its decoded `SongDetailResult`, not the request.
- JSON decoding is not modelled: the pydantic parsing, the alias table and
  the coercion of `publish_date`/`birth_date` into dates. Every schema is an
  already-decoded record, and fields are named by their snake_case names.
- The untyped `qq` dict is a JSON value without floating-point numbers.
- The host framework classes are not modelled as classes:
  - `fuocore` models are records with only the fields the adapters set;
  - `Media` keeps only URL, format and bitrate;
  - the class `SequentialReader` models the generator `g` that `create_g`
    builds, together with the count it hands over. The host's own reader, and
    what it does with that count, are not part of this model; page 1's
    `total_count` is only carried, and the vendor seems always to send 0
    there.
- Models.MiguAlbumModel.Songs: the getter returns the very list object it
  caches, so a caller that changes that list in place changes what later
  reads return. The model returns the list as a value and does not capture
  that aliasing.
- The two artist classes are one record, `ArtistModel`, with only the fields
  the adapters set. Its flag `bound` stands for the class: the provider-bound
  `MiguArtistModel` or the host's provider-less `ArtistModel`.
- `ArtistSongsResult` and `AlbumSongsResult` have the same shape, and both are
  `SongsResult`.
- Models.SequentialReader.Next: the `data is None` branch of the generator is
  not modelled, because the page function always returns an envelope.
- Models.Search: the `KeyError` for a call without `type_`, and the host's
  parsing of the type string, are not modelled. The host's types are
  `HostSearchType`, with every type other than the five folded into `Other`.
- Plugin registration (`enable`/`disable`), the provider wiring, packaging,
  the `Singleton` metaclass and the live-service test are not modelled. They
  hold no logic of the core.
- The schema classes with no derived fields are records only:
  `ArtistDetail`, `PlaylistDetail`, `PlaylistTag`, `PlaylistSong`, and the
  playlist envelopes.
