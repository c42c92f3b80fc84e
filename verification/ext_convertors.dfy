/**
 * The ext/ variant of the domain normalizer (ext/.../Convertors.kt): total conversions of
 * raw catalog records into the host's Track, Album, Playlist, Artist and User, with
 * "Unknown" for missing names, optional extras entries only for present upstream fields,
 * the album / playlist / liked-songs classification, and a synthesised cover per quality.
 */
module ExtConvertors {
  import opened Wrappers
  import opened Collections
  import opened Text
  import opened Ytm
  import opened Echo

  const Unknown := "Unknown"
  /** `YoutubeExtension.ENGLISH` and `YoutubeExtension.SINGLES`. */
  const English := "en-GB"
  const Singles := "Singles"
  /** The service's synthetic "liked songs" playlist, never shown as a regular playlist. */
  const LikedSongsId := "VLSE"

  const RelatedIdKey := "relatedId"
  const LyricsIdKey := "lyricsId"
  const SetIdKey := "setId"

  const CoverBase := "https://img.youtube.com/vi/"
  /** The anti-JSON-hijacking prefix in front of the account switcher's response. */
  const AccountsPrefix := ")]}'"

  /** `name ?: "Unknown"`. */
  function NameOrUnknown(name: Option<string>): string
  {
    name.GetOr(Unknown)
  }

  /** `year?.toString()`. */
  function YearString(year: Option<int>): Option<string>
  {
    match year
    case None => None
    case Some(y) => Some(IntToString(y))
  }

  /** `thumbnail_provider?.getThumbnailUrl(quality)?.toImageHolder(...)`. */
  function ThumbnailImage(provider: Option<ThumbnailProvider>, quality: Quality, crop: bool): Option<ImageHolder>
  {
    match provider
    case None => None
    case Some(p) =>
      match p.GetThumbnailUrl(quality)
      case None => None
      case Some(url) => Some(UrlImage(url, crop))
  }

  /** `extras[key] = value` when the upstream value is non-null. */
  function PutIfPresent(extras: map<string, string>, key: string, value: Option<string>): map<string, string>
  {
    match value
    case None => extras
    case Some(v) => extras[key := v]
  }

  /** Kotlin's `String?.toBoolean()`: the text is non-null and equals "true" ignoring case.
      No character outside ASCII folds to one of the letters of "true", so comparing
      character by character after ASCII lowering is the same test. */
  function KotlinToBoolean(s: Option<string>): (b: bool)
    ensures b <==> s.Some? && LowerString(s.value) == "true"
  {
    var r := s.Some? && |s.value| == 4 && forall i :: 0 <= i < 4 ==> LowerAscii(s.value[i]) == "true"[i];
    assert s.Some? && LowerString(s.value) == "true" ==> r by {
      if s.Some? && LowerString(s.value) == "true" {
        forall i | 0 <= i < 4 ensures LowerAscii(s.value[i]) == "true"[i] {
          assert LowerString(s.value)[i] == LowerAscii(s.value[i]);
        }
      }
    }
    assert r ==> LowerString(s.value) == "true";
    r
  }

  /** The text with every ASCII capital lowered. */
  function LowerString(s: string): (r: string)
    ensures |r| == |s| && forall i :: 0 <= i < |s| ==> r[i] == LowerAscii(s[i])
  {
    seq(|s|, i requires 0 <= i < |s| => LowerAscii(s[i]))
  }

  function LowerAscii(c: char): char
  {
    if 'A' <= c <= 'Z' then (c as int + 32) as char else c
  }

  function CoverFile(quality: Quality): string
  {
    match quality
    case Low => "/mqdefault.jpg"
    case High => "/maxresdefault.jpg"
  }

  /** `getCover`: the predictable per-video thumbnail, cropped; the video id sits right
      after the image host's path and is followed by the quality's file name. */
  function GetCover(id: string, quality: Quality): (image: ImageHolder)
    ensures image.crop
    ensures |image.url| == |CoverBase| + |id| + |CoverFile(quality)|
    ensures image.url[..|CoverBase|] == CoverBase
    ensures image.url[|CoverBase|..|CoverBase| + |id|] == id
    ensures image.url[|CoverBase| + |id|..] == CoverFile(quality)
  {
    var url := CoverBase + id + CoverFile(quality);
    assert url[|CoverBase|..|CoverBase| + |id|] == id;
    assert url[|CoverBase| + |id|..] == CoverFile(quality);
    UrlImage(url, true)
  }

  /** Different videos, or different quality tiers, never share a synthesised cover URL. */
  lemma {:induction false} GetCoverInjective(id1: string, q1: Quality, id2: string, q2: Quality)
    requires GetCover(id1, q1).url == GetCover(id2, q2).url
    ensures id1 == id2 && q1 == q2
  {
    var u := GetCover(id1, q1).url;
    var n := |CoverBase|;
    // Both quality names end the URL; 14 characters from its end each name has a '/' when
    // it is the low-quality one and an 'r' when it is the high-quality one.
    var f1, f2 := CoverFile(q1), CoverFile(q2);
    assert u[|u| - 14] == f1[|f1| - 14] == f2[|f2| - 14];
    if q1 != q2 {
      assert false;
    }
    assert id1 == u[n..n + |id1|] == id2;
  }

  /** `YtmArtist.toArtist`: never fails, a missing name becomes "Unknown". */
  function ToArtist(artist: YtmArtist, quality: Quality): (r: Artist)
    ensures r.id == artist.id
    ensures artist.name.Some? ==> r.name == artist.name.value
    ensures artist.name.None? ==> r.name == Unknown
    ensures r.cover == ThumbnailImage(artist.thumbnail, quality, false)
    ensures r.description == artist.description && r.followers == artist.subscriberCount
    ensures r.extras == map[]
  {
    Artist(artist.id, NameOrUnknown(artist.name), ThumbnailImage(artist.thumbnail, quality, false),
           artist.description, artist.subscriberCount, map[])
  }

  /** `YtmArtist.toUser`. */
  function ToUser(artist: YtmArtist, quality: Quality): (r: User)
    ensures r.id == artist.id
    ensures artist.name.Some? ==> r.name == artist.name.value
    ensures artist.name.None? ==> r.name == Unknown
    ensures r.cover == ThumbnailImage(artist.thumbnail, quality, false)
    ensures r.extras == map[]
  {
    User(artist.id, NameOrUnknown(artist.name), ThumbnailImage(artist.thumbnail, quality, false), map[])
  }

  /** `User.toArtist`: a structural projection keeping id, name, cover and extras. */
  function UserToArtist(user: User): (r: Artist)
    ensures r.id == user.id && r.name == user.name && r.cover == user.cover && r.extras == user.extras
    ensures r.description.None? && r.followers.None?
  {
    Artist(user.id, user.name, user.cover, None, None, user.extras)
  }

  /** Going through `toUser` and back with `User.toArtist` loses only the description and
      the follower count that `toArtist` would have kept. */
  lemma {:induction false} UserArtistProjection(artist: YtmArtist, quality: Quality)
    ensures UserToArtist(ToUser(artist, quality))
         == ToArtist(artist, quality).(description := None, followers := None)
  {
  }

  /** `YtmPlaylist.toAlbum`. */
  function ToAlbum(playlist: YtmPlaylist, single: bool, quality: Quality): (r: Album)
    ensures r.id == playlist.id
    ensures r.title == NameOrUnknown(playlist.name)
    ensures playlist.itemCount.Some? ==> r.tracks == playlist.itemCount
    ensures playlist.itemCount.None? ==> r.tracks == (if single then Some(1) else None)
    ensures r.releaseDate == r.subtitle == YearString(playlist.year)
    ensures r.duration == playlist.totalDuration && r.description == playlist.description
    ensures r.cover == ThumbnailImage(playlist.thumbnail, quality, false)
    ensures playlist.artists.None? ==> r.artists == []
    ensures playlist.artists.Some? ==> |r.artists| == |playlist.artists.value|
    ensures playlist.artists.Some? ==>
              forall i :: 0 <= i < |r.artists| ==> r.artists[i] == ToArtist(playlist.artists.value[i], quality)
  {
    Echo.Album(
      playlist.id,
      NameOrUnknown(playlist.name),
      ThumbnailImage(playlist.thumbnail, quality, false),
      MapOrEmpty(playlist.artists, a => ToArtist(a, quality)),
      if playlist.itemCount.Some? then playlist.itemCount else if single then Some(1) else None,
      YearString(playlist.year),
      playlist.totalDuration,
      playlist.description,
      YearString(playlist.year))
  }

  /** The names `toPlaylist` joins into its subtitle, one per artist. */
  function ArtistNames(artists: seq<YtmArtist>): (names: seq<string>)
    ensures |names| == |artists|
    ensures forall i :: 0 <= i < |artists| && artists[i].name.Some? ==> names[i] == artists[i].name.value
    ensures forall i :: 0 <= i < |artists| && artists[i].name.None? ==> names[i] == Unknown
  {
    seq(|artists|, i requires 0 <= i < |artists| => NameOrUnknown(artists[i].name))
  }

  /** `YtmPlaylist.toPlaylist`. */
  function ToPlaylist(playlist: YtmPlaylist, quality: Quality, related: Option<string>): (r: Playlist)
    ensures r.id == playlist.id
    ensures r.title == NameOrUnknown(playlist.name)
    ensures Extra(r.extras, RelatedIdKey) == related && r.extras.Keys <= {RelatedIdKey}
    ensures r.isEditable ==> playlist.ownerId.Some?
    ensures r.isEditable <==> KotlinToBoolean(playlist.ownerId)
    ensures r.cover == ThumbnailImage(playlist.thumbnail, quality, false)
    ensures playlist.artists.None? ==> r.authors == []
    ensures playlist.artists.Some? ==> |r.authors| == |playlist.artists.value|
    ensures playlist.artists.Some? ==>
              forall i :: 0 <= i < |r.authors| ==> r.authors[i] == ToUser(playlist.artists.value[i], quality)
    ensures playlist.artists.None? ==> r.subtitle == YearString(playlist.year)
    ensures playlist.artists.Some? ==> r.subtitle == Some(JoinToString(ArtistNames(playlist.artists.value), ", "))
    ensures r.tracks == playlist.itemCount && r.duration == playlist.totalDuration
    ensures r.creationDate == YearString(playlist.year) && r.description == playlist.description
  {
    var extras := PutIfPresent(map[], RelatedIdKey, related);
    Echo.Playlist(
      playlist.id,
      NameOrUnknown(playlist.name),
      KotlinToBoolean(playlist.ownerId),
      ThumbnailImage(playlist.thumbnail, quality, false),
      MapOrEmpty(playlist.artists, a => ToUser(a, quality)),
      playlist.itemCount,
      playlist.totalDuration,
      YearString(playlist.year),
      playlist.description,
      match playlist.artists
      case Some(artists) => Some(JoinToString(ArtistNames(artists), ", "))
      case None => YearString(playlist.year),
      extras)
  }

  /** When the record lists artists, the playlist's subtitle is exactly its authors' display
      names joined with ", " (an empty list gives "", not the year). */
  lemma {:induction false} PlaylistSubtitleNamesAuthors(playlist: YtmPlaylist, quality: Quality, related: Option<string>)
    requires playlist.artists.Some?
    ensures var r := ToPlaylist(playlist, quality, related);
            r.subtitle == Some(JoinToString(seq(|r.authors|, i requires 0 <= i < |r.authors| => r.authors[i].name), ", "))
  {
    var r := ToPlaylist(playlist, quality, related);
    var artists := playlist.artists.value;
    assert seq(|r.authors|, i requires 0 <= i < |r.authors| => r.authors[i].name) == ArtistNames(artists);
  }

  /** The extras `toTrack` fills in one `put` at a time: each entry only for a non-null
      upstream value. */
  function TrackExtras(related: Option<string>, lyrics: Option<string>, setId: Option<string>): (extras: map<string, string>)
    ensures Extra(extras, RelatedIdKey) == related
    ensures Extra(extras, LyricsIdKey) == lyrics
    ensures Extra(extras, SetIdKey) == setId
    ensures extras.Keys <= {RelatedIdKey, LyricsIdKey, SetIdKey}
  {
    assert RelatedIdKey[0] != LyricsIdKey[0] && RelatedIdKey[0] != SetIdKey[0] && LyricsIdKey[0] != SetIdKey[0];
    PutIfPresent(PutIfPresent(PutIfPresent(map[], RelatedIdKey, related), LyricsIdKey, lyrics), SetIdKey, setId)
  }

  /** `YtmSong.toTrack`. */
  function ToTrack(song: YtmSong, quality: Quality, setId: Option<string>): (r: Track)
    ensures r.id == song.id
    ensures song.name.None? ==> r.title == Unknown
    ensures song.name.Some? ==> r.title == song.name.value
    ensures Extra(r.extras, RelatedIdKey) == song.relatedBrowseId
    ensures Extra(r.extras, LyricsIdKey) == song.lyricsBrowseId
    ensures Extra(r.extras, SetIdKey) == setId
    ensures r.extras.Keys <= {RelatedIdKey, LyricsIdKey, SetIdKey}
    ensures song.artists.None? ==> r.artists == []
    ensures song.artists.Some? ==> |r.artists| == |song.artists.value|
    ensures song.artists.Some? ==>
              forall i :: 0 <= i < |r.artists| ==> r.artists[i] == ToArtist(song.artists.value[i], quality)
    ensures r.cover.crop
    ensures ThumbnailImage(song.thumbnail, quality, true).None? ==> r.cover == GetCover(song.id, quality)
    ensures ThumbnailImage(song.thumbnail, quality, true).Some? ==>
              r.cover == ThumbnailImage(song.thumbnail, quality, true).value
    ensures r.album.Some? <==> song.album.Some?
    ensures r.album.Some? ==> r.album.value == ToAlbum(song.album.value, false, quality)
                              && r.releaseDate == r.album.value.releaseDate
    ensures r.album.None? ==> r.releaseDate.None?
    ensures r.liked == song.isExplicit && r.duration == song.duration
  {
    var album := match song.album
      case None => None
      case Some(a) => Some(ToAlbum(a, false, quality));
    var extras := TrackExtras(song.relatedBrowseId, song.lyricsBrowseId, setId);
    Track(
      song.id,
      NameOrUnknown(song.name),
      MapOrEmpty(song.artists, a => ToArtist(a, quality)),
      ThumbnailImage(song.thumbnail, quality, true).GetOr(GetCover(song.id, quality)),
      album,
      song.duration,
      match album
      case None => None
      case Some(a) => a.releaseDate,
      song.isExplicit,
      extras)
  }

  /** `YtmMediaItem.toEchoMediaItem`: songs become tracks, ALBUM-typed playlists albums,
      other playlists playlists unless they are the liked-songs sentinel, artists artists,
      and anything else nothing. */
  function ToEchoMediaItem(item: YtmMediaItem, single: bool, quality: Quality): (r: Option<EchoMediaItem>)
    ensures r.Some? ==> r.value.Id() == match item
                                        case SongItem(s) => s.id
                                        case PlaylistItem(p) => p.id
                                        case ArtistItem(a) => a.id
                                        case OtherItem(id) => id
    ensures r.Some? && r.value.TrackItem? <==> item.SongItem?
    ensures r.Some? && r.value.AlbumItem? <==> item.PlaylistItem? && item.playlist.kind == Some(PlaylistType.Album)
    ensures r.Some? && r.value.PlaylistItem? <==>
              item.PlaylistItem? && item.playlist.kind != Some(PlaylistType.Album) && item.playlist.id != LikedSongsId
    ensures r.Some? && r.value.ArtistItem? <==> item.ArtistItem?
    ensures r.Some? ==> !r.value.RadioItem? && !r.value.UserItem?
    ensures r.None? <==> (item.OtherItem? ||
              (item.PlaylistItem? && item.playlist.kind != Some(PlaylistType.Album) && item.playlist.id == LikedSongsId))
    ensures item.SongItem? ==> r == Some(TrackItem(ToTrack(item.song, quality, None)))
    ensures item.PlaylistItem? && item.playlist.kind == Some(PlaylistType.Album) ==>
              r == Some(AlbumItem(ToAlbum(item.playlist, single, quality)))
    ensures item.PlaylistItem? && item.playlist.kind != Some(PlaylistType.Album) && item.playlist.id != LikedSongsId ==>
              r == Some(EchoMediaItem.PlaylistItem(ToPlaylist(item.playlist, quality, None)))
    ensures item.ArtistItem? ==> r == Some(EchoMediaItem.ArtistItem(ToArtist(item.artist, quality)))
  {
    match item
    case SongItem(s) => Some(TrackItem(ToTrack(s, quality, None)))
    case PlaylistItem(p) =>
      if p.kind == Some(PlaylistType.Album) then Some(AlbumItem(ToAlbum(p, single, quality)))
      else if p.id != LikedSongsId then Some(EchoMediaItem.PlaylistItem(ToPlaylist(p, quality, None)))
      else None
    case ArtistItem(a) => Some(EchoMediaItem.ArtistItem(ToArtist(a, quality)))
    case OtherItem(_) => None
  }

  /** `items.mapNotNull { it.toEchoMediaItem(single, quality) }`. */
  function ToEchoMediaItems(items: seq<YtmMediaItem>, single: bool, quality: Quality): (r: seq<EchoMediaItem>)
    ensures |r| <= |items|
    ensures forall m :: m in r && m.PlaylistItem? ==> m.playlist.id != LikedSongsId
    ensures forall i :: 0 <= i < |items| && ToEchoMediaItem(items[i], single, quality).Some? ==>
              ToEchoMediaItem(items[i], single, quality).value in r
  {
    var f := item => ToEchoMediaItem(item, single, quality);
    var r := MapNotNull(items, f);
    assert forall m :: m in r && m.PlaylistItem? ==> m.playlist.id != LikedSongsId by {
      forall m | m in r && m.PlaylistItem? ensures m.playlist.id != LikedSongsId {
        MapNotNullFrom(items, f, m);
      }
    }
    assert forall i :: 0 <= i < |items| && f(items[i]).Some? ==> f(items[i]).value in r by {
      forall i | 0 <= i < |items| && f(items[i]).Some? ensures f(items[i]).value in r {
        MapNotNullKeeps(items, f, items[i]);
      }
    }
    r
  }

  /** Every converted item comes from an item of the row. */
  lemma {:induction false} ToEchoMediaItemsFrom(items: seq<YtmMediaItem>, single: bool, quality: Quality, m: EchoMediaItem)
    requires m in ToEchoMediaItems(items, single, quality)
    ensures exists i :: 0 <= i < |items| && ToEchoMediaItem(items[i], single, quality) == Some(m)
  {
    var f := item => ToEchoMediaItem(item, single, quality);
    assert ToEchoMediaItems(items, single, quality) == MapNotNull(items, f);
    MapNotNullFrom(items, f, m);
    var x :| x in items && f(x) == Some(m);
    var i :| 0 <= i < |items| && items[i] == x;
  }

  /** Conversion keeps the order of the row: the items of a longer row are those of its
      front followed by those of its back. */
  lemma {:induction false} ToEchoMediaItemsAppend(a: seq<YtmMediaItem>, b: seq<YtmMediaItem>, single: bool, quality: Quality)
    ensures ToEchoMediaItems(a + b, single, quality) == ToEchoMediaItems(a, single, quality) + ToEchoMediaItems(b, single, quality)
  {
    var f := item => ToEchoMediaItem(item, single, quality);
    MapNotNullAppend(a, b, f);
  }

  /** A row is a "singles" row exactly when its British-English title is "Singles". */
  predicate IsSinglesTitle(title: Option<LocalisedString>)
  {
    title.Some? && title.value.english == Singles
  }

  /** `MediaItemLayout.toMediaItemsContainer`: the display title (or "Unknown"), and items
      converted with the singles flag taken from the locale-independent English title. */
  function ToMediaItemsContainer(layout: MediaItemLayout, quality: Quality): (r: Shelf)
    ensures layout.title.None? ==> r.title == Unknown
    ensures layout.title.Some? ==> r.title == layout.title.value.display
    ensures layout.subtitle.None? ==> r.subtitle.None?
    ensures layout.subtitle.Some? ==> r.subtitle == Some(layout.subtitle.value.display)
    ensures r.items == ToEchoMediaItems(layout.items, IsSinglesTitle(layout.title), quality)
    ensures r.hasMore <==> layout.viewMoreBrowseId.Some?
  {
    Shelf(
      match layout.title
      case Some(t) => t.display
      case None => Unknown,
      match layout.subtitle
      case Some(t) => Some(t.display)
      case None => None,
      ToEchoMediaItems(layout.items, IsSinglesTitle(layout.title), quality),
      layout.viewMoreBrowseId.Some?)
  }

  /** The singles flag changes only the track count of albums that lack one, and depends on
      the English title alone, so two rows whose English titles agree convert alike. */
  lemma {:induction false} SinglesFlagIsLocaleIndependent(layout: MediaItemLayout, display: string, quality: Quality)
    requires layout.title.Some?
    ensures ToMediaItemsContainer(layout.(title := Some(layout.title.value.(display := display))), quality).items
         == ToMediaItemsContainer(layout, quality).items
  {
  }

  /** `substringAfter(")]}'")` applied to the account switcher's body before decoding. */
  function AccountsJson(body: string): (json: string)
    ensures (forall k :: !OccursAt(body, AccountsPrefix, k)) ==> json == body
    ensures FirstAt(body, AccountsPrefix, 0).Some? ==>
              body == body[..FirstAt(body, AccountsPrefix, 0).value] + AccountsPrefix + json
    ensures |json| <= |body|
  {
    SubstringAfter(body, AccountsPrefix)
  }

  /** The prefixed body decodes from exactly the text after the prefix, even when that text
      itself contains the prefix again. */
  lemma {:induction false} AccountsJsonStripsPrefix(json: string)
    ensures AccountsJson(AccountsPrefix + json) == json
  {
    SubstringAfterPrefix(AccountsPrefix, json);
  }
}
