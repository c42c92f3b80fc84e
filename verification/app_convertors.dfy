/**
 * The app/ variant of the domain normalizer (app/.../Convertors.kt), an older copy built
 * against an earlier host library: its albums and playlists carry their converted track
 * lists, its artists have no extras, a nameless artist is dropped instead of renamed,
 * editability compares the owner with the signed-in channel, and every track cover is the
 * synthesised per-video thumbnail.
 */
module AppConvertors {
  import opened Wrappers
  import opened Collections
  import opened Text
  import opened Ytm
  import Echo
  import ExtConvertors

  type ImageHolder = Echo.ImageHolder

  // ---------------------------------------------------------------------------
  // The earlier host models
  // ---------------------------------------------------------------------------

  datatype AppArtist = AppArtist(
    id: string,
    name: string,
    cover: Option<ImageHolder>,
    description: Option<string>,
    followers: Option<int>)

  datatype AppTrack = AppTrack(
    id: string,
    title: string,
    artists: seq<AppArtist>,
    cover: ImageHolder,
    album: Option<AppAlbum>,
    duration: Option<int>,
    releaseDate: Option<string>,
    liked: bool,
    extras: map<string, string>)

  datatype AppAlbum = AppAlbum(
    id: string,
    title: string,
    cover: Option<ImageHolder>,
    artists: seq<AppArtist>,
    numberOfTracks: Option<int>,
    releaseDate: Option<string>,
    tracks: seq<AppTrack>,
    duration: Option<int>,
    description: Option<string>,
    subtitle: Option<string>)

  datatype AppPlaylist = AppPlaylist(
    id: string,
    title: string,
    isEditable: bool,
    cover: Option<ImageHolder>,
    authors: seq<AppArtist>,
    tracks: seq<AppTrack>,
    subtitle: Option<string>,
    duration: Option<int>,
    creationDate: Option<string>,
    extras: map<string, string>)

  datatype AppMediaItem =
    | TrackItem(track: AppTrack)
    | AlbumItem(album: AppAlbum)
    | PlaylistItem(playlist: AppPlaylist)
    | ArtistItem(artist: AppArtist)

  /** `MediaItemsContainer.Category`; the deferred "more" flow is a remote call, only its
      presence is kept. */
  datatype AppContainer = AppContainer(
    title: string,
    subtitle: Option<string>,
    list: seq<AppMediaItem>,
    hasMore: bool)

  const RelatedIdKey := "relatedId"
  const ItemSetIdsKey := "item_set_ids"

  // ---------------------------------------------------------------------------
  // Conversions
  // ---------------------------------------------------------------------------

  /** `SongThumbnailProvider(id).getThumbnailUrl(quality)`. */
  function SongThumbnailUrl(id: string, quality: Quality): (url: string)
    ensures var n := |ExtConvertors.CoverBase|;
            |url| == n + |id| + |ExtConvertors.CoverFile(quality)|
            && url[..n] == ExtConvertors.CoverBase
            && url[n..n + |id|] == id
            && url[n + |id|..] == ExtConvertors.CoverFile(quality)
  {
    match quality
    case Low => "https://img.youtube.com/vi/" + id + "/mqdefault.jpg"
    case High => "https://img.youtube.com/vi/" + id + "/maxresdefault.jpg"
  }

  /** The older thumbnail provider and the newer `getCover` write the same URL for every
      video and quality. */
  lemma {:induction false} SongThumbnailMatchesExtCover(id: string, quality: Quality)
    ensures Echo.UrlImage(SongThumbnailUrl(id, quality), true) == ExtConvertors.GetCover(id, quality)
  {
  }

  /** So the provider, too, names each video and quality tier by a URL of its own. */
  lemma {:induction false} SongThumbnailInjective(id1: string, q1: Quality, id2: string, q2: Quality)
    requires SongThumbnailUrl(id1, q1) == SongThumbnailUrl(id2, q2)
    ensures id1 == id2 && q1 == q2
  {
    SongThumbnailMatchesExtCover(id1, q1);
    SongThumbnailMatchesExtCover(id2, q2);
    ExtConvertors.GetCoverInjective(id1, q1, id2, q2);
  }

  function ThumbnailImage(provider: Option<ThumbnailProvider>, quality: Quality): Option<ImageHolder>
  {
    ExtConvertors.ThumbnailImage(provider, quality, false)
  }

  /** `YtmArtist.toArtist`, nullable here: an artist without a name converts to nothing. */
  function ToArtist(artist: YtmArtist, quality: Quality): (r: Option<AppArtist>)
    ensures r.None? <==> artist.name.None?
    ensures r.Some? ==> r.value.id == artist.id && r.value.name == artist.name.value
                        && r.value.cover == ThumbnailImage(artist.thumbnail, quality)
                        && r.value.description == artist.description
                        && r.value.followers == artist.subscriberCount
  {
    match artist.name
    case None => None
    case Some(name) =>
      Some(AppArtist(artist.id, name, ThumbnailImage(artist.thumbnail, quality),
                     artist.description, artist.subscriberCount))
  }

  /** `artists?.mapNotNull { it.toArtist(quality) } ?: emptyList()`. */
  function ToArtists(artists: Option<seq<YtmArtist>>, quality: Quality): (r: seq<AppArtist>)
    ensures artists.None? ==> r == []
    ensures artists.Some? ==> |r| <= |artists.value|
  {
    match artists
    case None => []
    case Some(xs) => MapNotNull(xs, a => ToArtist(a, quality))
  }

  /** Converting a list of artists keeps exactly the named ones, in their order: the
      result is the named artists, each converted. */
  lemma {:induction false} ToArtistsKeepsNamed(xs: seq<YtmArtist>, quality: Quality)
    ensures var r := ToArtists(Some(xs), quality);
            var named := NamedArtists(xs);
            |r| == |named| && forall i :: 0 <= i < |r| ==> Some(r[i]) == ToArtist(named[i], quality)
  {
    if xs != [] {
      ToArtistsKeepsNamed(xs[1..], quality);
      ToArtistsCons(xs, quality);
    }
  }

  /** One step of `ToArtists`: the head artist is kept, converted, exactly when it is
      named. */
  lemma {:induction false} ToArtistsCons(xs: seq<YtmArtist>, quality: Quality)
    requires xs != []
    ensures xs[0].name.Some? ==>
              ToArtists(Some(xs), quality) == [ToArtist(xs[0], quality).value] + ToArtists(Some(xs[1..]), quality)
              && NamedArtists(xs) == [xs[0]] + NamedArtists(xs[1..])
    ensures xs[0].name.None? ==>
              ToArtists(Some(xs), quality) == ToArtists(Some(xs[1..]), quality)
              && NamedArtists(xs) == NamedArtists(xs[1..])
  {
  }

  /** The named artists of a list, in order: an independent statement of what `mapNotNull`
      over the nullable `toArtist` keeps. */
  function NamedArtists(xs: seq<YtmArtist>): seq<YtmArtist>
  {
    if xs == [] then []
    else if xs[0].name.Some? then [xs[0]] + NamedArtists(xs[1..])
    else NamedArtists(xs[1..])
  }

  /** `YtmSong.toTrack`: the cover is always the synthesised one, `liked` always false, and
      the only extra is the related browse id when there is one. */
  function ToTrack(song: YtmSong, quality: Quality): (r: AppTrack)
    ensures r.id == song.id
    ensures r.title == NameOrUnknown(song.name)
    ensures r.cover == Echo.UrlImage(SongThumbnailUrl(song.id, quality), true)
    ensures !r.liked
    ensures song.relatedBrowseId.None? ==> r.extras == map[]
    ensures song.relatedBrowseId.Some? ==> r.extras == map[RelatedIdKey := song.relatedBrowseId.value]
    ensures r.artists == ToArtists(song.artists, quality)
    ensures r.album.Some? <==> song.album.Some?
    ensures r.album.Some? ==> r.album.value == ToAlbum(song.album.value, false, quality)
    ensures r.album.Some? ==> r.releaseDate == r.album.value.releaseDate
    ensures r.album.None? ==> r.releaseDate.None?
    ensures r.duration == song.duration
    decreases song, 1
  {
    var album := match song.album
      case None => None
      case Some(a) => Some(ToAlbum(a, false, quality));
    AppTrack(
      song.id,
      NameOrUnknown(song.name),
      ToArtists(song.artists, quality),
      Echo.UrlImage(SongThumbnailUrl(song.id, quality), true),
      album,
      song.duration,
      match album
      case None => None
      case Some(a) => a.releaseDate,
      false,
      match song.relatedBrowseId
      case None => map[]
      case Some(related) => map[RelatedIdKey := related])
  }

  /** `items?.map { it.toTrack(quality) } ?: emptyList()`: a playlist's items, converted
      one for one and in order. */
  function ItemTracks(playlist: YtmPlaylist, quality: Quality): (r: seq<AppTrack>)
    ensures playlist.items.None? ==> r == []
    ensures playlist.items.Some? ==> |r| == |playlist.items.value.songs|
    ensures playlist.items.Some? ==> forall i :: 0 <= i < |r| ==> r[i] == ToTrack(playlist.items.value.songs[i], quality)
    decreases playlist, 0
  {
    match playlist.items
    case None => []
    case Some(SongList(songs)) => seq(|songs|, i requires 0 <= i < |songs| => ToTrack(songs[i], quality))
  }

  function NameOrUnknown(name: Option<string>): string
  {
    name.GetOr(ExtConvertors.Unknown)
  }

  /** `YtmPlaylist.toAlbum`: the track list is the items, converted in order. */
  function ToAlbum(playlist: YtmPlaylist, single: bool, quality: Quality): (r: AppAlbum)
    ensures r.id == playlist.id && r.title == NameOrUnknown(playlist.name)
    ensures playlist.itemCount.Some? ==> r.numberOfTracks == playlist.itemCount
    ensures playlist.itemCount.None? ==> r.numberOfTracks == (if single then Some(1) else None)
    ensures r.cover == ThumbnailImage(playlist.thumbnail, quality)
    ensures r.artists == ToArtists(playlist.artists, quality)
    ensures r.tracks == ItemTracks(playlist, quality)
    ensures r.releaseDate == r.subtitle == ExtConvertors.YearString(playlist.year)
    ensures r.duration == playlist.totalDuration && r.description == playlist.description
    decreases playlist, 1
  {
    AppAlbum(
      playlist.id,
      NameOrUnknown(playlist.name),
      ThumbnailImage(playlist.thumbnail, quality),
      ToArtists(playlist.artists, quality),
      if playlist.itemCount.Some? then playlist.itemCount else if single then Some(1) else None,
      ExtConvertors.YearString(playlist.year),
      ItemTracks(playlist, quality),
      playlist.totalDuration,
      playlist.description,
      ExtConvertors.YearString(playlist.year))
  }

  /** `sumOf { it.duration ?: 0 }`: songs without a duration add nothing. */
  function SumDurations(songs: seq<YtmSong>): (total: int)
    ensures (forall i :: 0 <= i < |songs| ==> songs[i].duration.None?) ==> total == 0
    ensures (forall i :: 0 <= i < |songs| ==> songs[i].duration.GetOr(0) >= 0) ==> total >= 0
  {
    if songs == [] then 0 else songs[0].duration.GetOr(0) + SumDurations(songs[1..])
  }

  /** The sum splits over concatenation: the total of a list is the total of its front plus
      the total of its back. */
  lemma {:induction false} SumDurationsAppend(a: seq<YtmSong>, b: seq<YtmSong>)
    ensures SumDurations(a + b) == SumDurations(a) + SumDurations(b)
  {
    if a != [] {
      SumDurationsAppend(a[1..], b);
      assert (a + b)[1..] == a[1..] + b;
    } else {
      assert a + b == b;
    }
  }

  /** `YtmPlaylist.toPlaylist`, given the signed-in channel id. */
  function ToPlaylist(playlist: YtmPlaylist, channelId: Option<string>, quality: Quality, related: Option<string>): (r: AppPlaylist)
    ensures r.id == playlist.id && r.title == NameOrUnknown(playlist.name)
    ensures r.isEditable <==> playlist.ownerId.Some? && channelId == playlist.ownerId
    ensures Echo.Extra(r.extras, RelatedIdKey) == related
    ensures playlist.itemSetIds.None? ==> ItemSetIdsKey !in r.extras
    ensures playlist.itemSetIds.Some? ==>
              Echo.Extra(r.extras, ItemSetIdsKey) == Some(JoinToString(playlist.itemSetIds.value, ","))
    ensures r.extras.Keys <= {RelatedIdKey, ItemSetIdsKey}
    ensures playlist.description.Some? && playlist.description.value != "" ==> r.subtitle == playlist.description
    ensures playlist.description.None? || playlist.description.value == "" ==>
              r.subtitle == ExtConvertors.YearString(playlist.year)
    ensures playlist.totalDuration.Some? ==> r.duration == playlist.totalDuration
    ensures playlist.totalDuration.None? && playlist.items.Some? ==> r.duration == Some(SumDurations(playlist.items.value.songs))
    ensures playlist.totalDuration.None? && playlist.items.None? ==> r.duration.None?
    ensures r.cover == ThumbnailImage(playlist.thumbnail, quality)
    ensures r.authors == ToArtists(playlist.artists, quality)
    ensures r.tracks == ItemTracks(playlist, quality)
    ensures r.creationDate == ExtConvertors.YearString(playlist.year)
  {
    AppPlaylist(
      playlist.id,
      NameOrUnknown(playlist.name),
      playlist.ownerId.Some? && channelId == playlist.ownerId,
      ThumbnailImage(playlist.thumbnail, quality),
      ToArtists(playlist.artists, quality),
      ItemTracks(playlist, quality),
      if playlist.description.Some? && playlist.description.value != "" then playlist.description
      else ExtConvertors.YearString(playlist.year),
      if playlist.totalDuration.Some? then playlist.totalDuration
      else match playlist.items
        case None => None
        case Some(items) => Some(SumDurations(items.songs)),
      ExtConvertors.YearString(playlist.year),
      PlaylistExtras(related, playlist.itemSetIds))
  }

  /** The extras `toPlaylist` fills in: the related id and the joined slot ids, each only
      when present upstream. */
  function PlaylistExtras(related: Option<string>, itemSetIds: Option<seq<string>>): (extras: map<string, string>)
    ensures Echo.Extra(extras, RelatedIdKey) == related
    ensures itemSetIds.None? ==> ItemSetIdsKey !in extras
    ensures itemSetIds.Some? ==> Echo.Extra(extras, ItemSetIdsKey) == Some(JoinToString(itemSetIds.value, ","))
    ensures extras.Keys <= {RelatedIdKey, ItemSetIdsKey}
  {
    assert RelatedIdKey[0] != ItemSetIdsKey[0];
    var extras := ExtConvertors.PutIfPresent(map[], RelatedIdKey, related);
    match itemSetIds
    case None => extras
    case Some(ids) => extras[ItemSetIdsKey := JoinToString(ids, ",")]
  }

  /** The `item_set_ids` extra is written so that splitting it on "," gives the slot ids
      back, as long as no id contains a comma. */
  lemma {:induction false} ItemSetIdsRoundTrip(playlist: YtmPlaylist, channelId: Option<string>, quality: Quality, related: Option<string>)
    requires playlist.itemSetIds.Some? && |playlist.itemSetIds.value| >= 1
    requires forall i :: 0 <= i < |playlist.itemSetIds.value| ==> ',' !in playlist.itemSetIds.value[i]
    ensures var r := ToPlaylist(playlist, channelId, quality, related);
            ItemSetIdsKey in r.extras && Split(r.extras[ItemSetIdsKey], ',') == playlist.itemSetIds.value
  {
    SplitJoinRoundTrip(playlist.itemSetIds.value, ',');
  }

  /** `YtmMediaItem.toEchoMediaItem`, given the signed-in channel id. */
  function ToEchoMediaItem(item: YtmMediaItem, channelId: Option<string>, single: bool, quality: Quality): (r: Option<AppMediaItem>)
    ensures r.Some? && r.value.TrackItem? <==> item.SongItem?
    ensures r.Some? && r.value.AlbumItem? <==> item.PlaylistItem? && item.playlist.kind == Some(PlaylistType.Album)
    ensures r.Some? && r.value.PlaylistItem? <==> item.PlaylistItem? && item.playlist.kind != Some(PlaylistType.Album)
    ensures r.Some? && r.value.ArtistItem? <==> item.ArtistItem? && item.artist.name.Some?
    ensures r.None? <==> (item.OtherItem? || (item.ArtistItem? && item.artist.name.None?))
    ensures item.SongItem? ==> r == Some(TrackItem(ToTrack(item.song, quality)))
    ensures item.PlaylistItem? && item.playlist.kind == Some(PlaylistType.Album) ==>
              r == Some(AlbumItem(ToAlbum(item.playlist, single, quality)))
    ensures item.PlaylistItem? && item.playlist.kind != Some(PlaylistType.Album) ==>
              r == Some(AppMediaItem.PlaylistItem(ToPlaylist(item.playlist, channelId, quality, None)))
    ensures item.ArtistItem? && item.artist.name.Some? ==> r == Some(AppMediaItem.ArtistItem(ToArtist(item.artist, quality).value))
  {
    match item
    case SongItem(s) => Some(TrackItem(ToTrack(s, quality)))
    case PlaylistItem(p) =>
      if p.kind == Some(PlaylistType.Album) then Some(AlbumItem(ToAlbum(p, single, quality)))
      else Some(AppMediaItem.PlaylistItem(ToPlaylist(p, channelId, quality, None)))
    case ArtistItem(a) =>
      (match ToArtist(a, quality)
       case None => None
       case Some(artist) => Some(AppMediaItem.ArtistItem(artist)))
    case OtherItem(_) => None
  }

  /** `MediaItemLayout.toMediaItemsContainer`. */
  function ToMediaItemsContainer(layout: MediaItemLayout, channelId: Option<string>, quality: Quality): (r: AppContainer)
    ensures layout.title.None? ==> r.title == ExtConvertors.Unknown
    ensures layout.title.Some? ==> r.title == layout.title.value.display
    ensures layout.subtitle.None? ==> r.subtitle.None?
    ensures layout.subtitle.Some? ==> r.subtitle == Some(layout.subtitle.value.display)
    ensures r.list == MapNotNull(layout.items, item => ToEchoMediaItem(item, channelId, ExtConvertors.IsSinglesTitle(layout.title), quality))
    ensures |r.list| <= |layout.items|
    ensures r.hasMore <==> layout.viewMoreBrowseId.Some?
  {
    AppContainer(
      match layout.title
      case Some(t) => t.display
      case None => ExtConvertors.Unknown,
      match layout.subtitle
      case Some(t) => Some(t.display)
      case None => None,
      MapNotNull(layout.items, item => ToEchoMediaItem(item, channelId, ExtConvertors.IsSinglesTitle(layout.title), quality)),
      layout.viewMoreBrowseId.Some?)
  }

  // ---------------------------------------------------------------------------
  // The two variants side by side
  // ---------------------------------------------------------------------------

  /** For a song without a thumbnail provider, both variants agree on the track's id, title,
      cover and duration; they differ in `liked` only when the song is explicit. */
  lemma {:induction false} TrackVariantsAgree(song: YtmSong, quality: Quality)
    requires song.thumbnail.None?
    ensures var app := ToTrack(song, quality);
            var ext := ExtConvertors.ToTrack(song, quality, None);
            app.id == ext.id && app.title == ext.title && app.cover == ext.cover
            && app.duration == ext.duration && (app.liked == ext.liked <==> !song.isExplicit)
  {
    SongThumbnailMatchesExtCover(song.id, quality);
  }

  /** Both variants classify a playlist record the same way, except that only the newer one
      hides the liked-songs sentinel. */
  lemma {:induction false} MediaItemVariantsAgree(item: YtmMediaItem, channelId: Option<string>, single: bool, quality: Quality)
    requires !item.ArtistItem?
    ensures var app := ToEchoMediaItem(item, channelId, single, quality);
            var ext := ExtConvertors.ToEchoMediaItem(item, single, quality);
            (app.Some? && app.value.TrackItem?) == (ext.Some? && ext.value.TrackItem?)
            && (app.Some? && app.value.AlbumItem?) == (ext.Some? && ext.value.AlbumItem?)
            && (ext.Some? ==> app.Some?)
            && (app.Some? && ext.None? <==> item.PlaylistItem? && item.playlist.id == ExtConvertors.LikedSongsId
                                            && item.playlist.kind != Some(PlaylistType.Album))
  {
  }
}
