/**
 * The host player's domain models, as the adapters fill them in. The host
 * owns these classes; here they are plain records. A field an adapter does
 * not set keeps the host's default, `None`.
 */
module Domain {
  import opened Wrappers

  /** A JSON value as it stands in a field the schemas leave untyped (`dict`).
      Floating-point numbers are not modelled. */
  datatype Json =
    | JNull
    | JBool(b: bool)
    | JInt(i: int)
    | JStr(s: string)
    | JArray(items: seq<Json>)
    | JObject(fields: map<string, Json>)

  /** A playable resource: its URL and, when known, its format and bitrate. */
  datatype Media = Media(url: string, format: Option<string>, bitrate: Option<string>)

  /** An artist. `bound` tells the plugin's provider-bound `MiguArtistModel`
      (true) from the host's provider-less `ArtistModel` (false). */
  datatype ArtistModel = ArtistModel(identifier: Option<string>, name: Option<string>, cover: Option<string>, bound: bool)

  datatype AlbumModel = AlbumModel(
    identifier: Option<string>,
    name: Option<string>,
    cover: Option<string>,
    desc: Option<string>,
    artists: Option<seq<ArtistModel>>)

  datatype LyricModel = LyricModel(identifier: Option<string>, content: Option<string>, transContent: Option<string>)

  datatype SongModel = SongModel(
    identifier: Option<string>,
    title: Option<string>,
    artists: seq<ArtistModel>,
    album: Option<AlbumModel>,
    mvCpid: Option<string>,
    url: Option<string>,
    hasMv: Option<bool>,
    qualities: Option<seq<string>>,
    contentId: Option<Json>,
    lyric: Option<LyricModel>)

  datatype PlaylistModel = PlaylistModel(identifier: Option<string>, name: Option<string>, cover: Option<string>)

  datatype MvModel = MvModel(identifier: Option<string>, name: Option<string>, desc: Option<string>, media: Media)

  datatype VideoModel = VideoModel(identifier: Option<string>, title: Option<string>)

  /** The aggregate search result: one optional list per kind of entity. */
  datatype SearchModel = SearchModel(
    songs: Option<seq<SongModel>>,
    albums: Option<seq<AlbumModel>>,
    artists: Option<seq<ArtistModel>>,
    playlists: Option<seq<PlaylistModel>>,
    videos: Option<seq<VideoModel>>)

  /** A search result with no list filled in. */
  const EmptySearch := SearchModel(None, None, None, None, None)

  /** The names of the lists a search result carries. */
  function FilledFields(m: SearchModel): set<string> {
    (if m.songs.Some? then {"songs"} else {})
    + (if m.albums.Some? then {"albums"} else {})
    + (if m.artists.Some? then {"artists"} else {})
    + (if m.playlists.Some? then {"playlists"} else {})
    + (if m.videos.Some? then {"videos"} else {})
  }
}
