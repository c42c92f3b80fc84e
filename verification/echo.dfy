/**
 * The host application's domain models as the ext/ variant of the extension builds them
 * (`Track`, `Album`, `Playlist`, `Artist`, `User`, `EchoMediaItem`), reduced to the fields
 * the extension sets.
 */
module Echo {
  import opened Wrappers

  /** `ImageHolder.UrlRequestImageHolder`: an image URL and whether the host crops it. */
  datatype ImageHolder = UrlImage(url: string, crop: bool)

  datatype Artist = Artist(
    id: string,
    name: string,
    cover: Option<ImageHolder>,
    description: Option<string>,
    followers: Option<int>,
    extras: map<string, string>)

  datatype User = User(
    id: string,
    name: string,
    cover: Option<ImageHolder>,
    extras: map<string, string>)

  datatype Album = Album(
    id: string,
    title: string,
    cover: Option<ImageHolder>,
    artists: seq<Artist>,
    tracks: Option<int>,
    releaseDate: Option<string>,
    duration: Option<int>,
    description: Option<string>,
    subtitle: Option<string>)

  datatype Playlist = Playlist(
    id: string,
    title: string,
    isEditable: bool,
    cover: Option<ImageHolder>,
    authors: seq<User>,
    tracks: Option<int>,
    duration: Option<int>,
    creationDate: Option<string>,
    description: Option<string>,
    subtitle: Option<string>,
    extras: map<string, string>)

  datatype Track = Track(
    id: string,
    title: string,
    artists: seq<Artist>,
    cover: ImageHolder,
    album: Option<Album>,
    duration: Option<int>,
    releaseDate: Option<string>,
    liked: bool,
    extras: map<string, string>)

  datatype Radio = Radio(id: string, title: string, extras: map<string, string>)

  /** `EchoMediaItem` and its subclasses. */
  datatype EchoMediaItem =
    | TrackItem(track: Track)
    | AlbumItem(album: Album)
    | PlaylistItem(playlist: Playlist)
    | RadioItem(radio: Radio)
    | ArtistItem(artist: Artist)
    | UserItem(user: User)
  {
    /** The id of the wrapped entity (`EchoMediaItem.id`). */
    function Id(): string
    {
      match this
      case TrackItem(t) => t.id
      case AlbumItem(a) => a.id
      case PlaylistItem(p) => p.id
      case RadioItem(r) => r.id
      case ArtistItem(a) => a.id
      case UserItem(u) => u.id
    }
  }

  /** A titled list of media items: `MediaItemsContainer.Category` and `Shelf.Lists.Items`.
      Whether a "more" page exists is kept; the deferred page itself is a remote call. */
  datatype Shelf = Shelf(
    title: string,
    subtitle: Option<string>,
    items: seq<EchoMediaItem>,
    hasMore: bool)

  /** `Tab`: a feed or library tab, named by the id the extension browses with. */
  datatype Tab = Tab(id: string, title: string)

  /** Looks up an optional extras entry: `extras[key]`, null when absent. */
  function Extra(extras: map<string, string>, key: string): Option<string>
  {
    if key in extras then Some(extras[key]) else None
  }
}
