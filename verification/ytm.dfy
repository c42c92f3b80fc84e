/**
 * The raw catalog records the extension receives from the ytmkt library
 * (`YtmSong`, `YtmPlaylist`, `YtmArtist`, the layouts that group them), reduced to the
 * fields the converters and the extension read. Nullable Kotlin fields are `Option`s.
 */
module Ytm {
  import opened Wrappers

  /** `ThumbnailProvider.Quality`. */
  datatype Quality = Low | High

  /** A `ThumbnailProvider` is a library object; all the model keeps of it is the URL
      (possibly null) its `getThumbnailUrl` gives for each quality. */
  datatype ThumbnailProvider = ThumbnailProvider(lowUrl: Option<string>, highUrl: Option<string>)
  {
    function GetThumbnailUrl(quality: Quality): Option<string>
    {
      match quality
      case Low => lowUrl
      case High => highUrl
    }
  }

  /** A localised catalog string: what `getString` gives for British English and for the
      display language the caller asks for. */
  datatype LocalisedString = LocalisedString(english: string, display: string)

  /** `YtmPlaylist.Type`; only `Album` is told apart by the extension. */
  datatype PlaylistType = Album | Playlist | Audiobook | Podcast | Radio | Local

  datatype YtmSong = YtmSong(
    id: string,
    name: Option<string>,
    artists: Option<seq<YtmArtist>>,
    thumbnail: Option<ThumbnailProvider>,
    album: Option<YtmPlaylist>,
    duration: Option<int>,
    relatedBrowseId: Option<string>,
    lyricsBrowseId: Option<string>,
    isExplicit: bool)

  datatype YtmPlaylist = YtmPlaylist(
    id: string,
    kind: Option<PlaylistType>,
    name: Option<string>,
    ownerId: Option<string>,
    thumbnail: Option<ThumbnailProvider>,
    artists: Option<seq<YtmArtist>>,
    itemCount: Option<int>,
    totalDuration: Option<int>,
    year: Option<int>,
    description: Option<string>,
    items: Option<SongList>,
    itemSetIds: Option<seq<string>>)

  /** A playlist's non-null `items` list, kept as a record of its own so that conversions
      recursing from a song into its album's songs visibly descend into the record. */
  datatype SongList = SongList(songs: seq<YtmSong>)

  datatype YtmArtist = YtmArtist(
    id: string,
    name: Option<string>,
    thumbnail: Option<ThumbnailProvider>,
    description: Option<string>,
    subscriberCount: Option<int>,
    layouts: Option<seq<ArtistLayout>>)

  /** One shelf of an artist page. */
  datatype ArtistLayout = ArtistLayout(
    title: Option<LocalisedString>,
    subtitle: Option<LocalisedString>,
    items: Option<seq<YtmMediaItem>>,
    hasViewMore: bool)

  /** `YtmMediaItem`: the three kinds the converters know, and any other subtype. */
  datatype YtmMediaItem =
    | SongItem(song: YtmSong)
    | PlaylistItem(playlist: YtmPlaylist)
    | ArtistItem(artist: YtmArtist)
    | OtherItem(itemId: string)

  /** `MediaItemLayout`: a titled row of feed items. */
  datatype MediaItemLayout = MediaItemLayout(
    title: Option<LocalisedString>,
    subtitle: Option<LocalisedString>,
    items: seq<YtmMediaItem>,
    viewMoreBrowseId: Option<string>)
}
