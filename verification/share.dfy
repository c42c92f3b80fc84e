/**
 * `onShare`: the YouTube Music link for a media item, one fixed path per item kind followed
 * by the item's id; and the reading of such a link back into its kind and id.
 */
module Share {
  import opened Wrappers
  import opened Echo

  const MusicBase := "https://music.youtube.com/"

  /** The four link shapes. Playlists and radios share one, so do artists and users. */
  datatype LinkKind = BrowseLink | PlaylistLink | ChannelLink | WatchLink

  function KindOf(item: EchoMediaItem): LinkKind
  {
    match item
    case AlbumItem(_) => BrowseLink
    case PlaylistItem(_) => PlaylistLink
    case RadioItem(_) => PlaylistLink
    case ArtistItem(_) => ChannelLink
    case UserItem(_) => ChannelLink
    case TrackItem(_) => WatchLink
  }

  function PathOf(kind: LinkKind): string
  {
    match kind
    case BrowseLink => "browse/"
    case PlaylistLink => "playlist?list="
    case ChannelLink => "channel/"
    case WatchLink => "watch?v="
  }

  /** `onShare(item)`. */
  function ShareUrl(item: EchoMediaItem): (url: string)
    ensures |url| == |MusicBase| + |PathOf(KindOf(item))| + |item.Id()|
    ensures url[..|MusicBase|] == MusicBase
    ensures url[|MusicBase|..|MusicBase| + |PathOf(KindOf(item))|] == PathOf(KindOf(item))
    ensures url[|url| - |item.Id()|..] == item.Id()
  {
    var url := MusicBase + PathOf(KindOf(item)) + item.Id();
    assert url[|url| - |item.Id()|..] == item.Id();
    url
  }

  predicate StartsWith(s: string, prefix: string)
  {
    |prefix| <= |s| && s[..|prefix|] == prefix
  }

  /** Reads a shared link back: its kind and the id after the path, or nothing when it is
      not a YouTube Music link of one of the four shapes. */
  function ParseShareUrl(url: string): (r: Option<(LinkKind, string)>)
    ensures r.Some? ==> url == MusicBase + PathOf(r.value.0) + r.value.1
  {
    if !StartsWith(url, MusicBase) then None
    else
      var rest := url[|MusicBase|..];
      assert url == MusicBase + rest;
      if StartsWith(rest, PathOf(BrowseLink)) then Some((BrowseLink, rest[|PathOf(BrowseLink)|..]))
      else if StartsWith(rest, PathOf(PlaylistLink)) then Some((PlaylistLink, rest[|PathOf(PlaylistLink)|..]))
      else if StartsWith(rest, PathOf(ChannelLink)) then Some((ChannelLink, rest[|PathOf(ChannelLink)|..]))
      else if StartsWith(rest, PathOf(WatchLink)) then Some((WatchLink, rest[|PathOf(WatchLink)|..]))
      else None
  }

  /** No path is a prefix of another: they already differ in their first character. */
  lemma {:induction false} PathsPrefixFree(k1: LinkKind, k2: LinkKind, s: string)
    requires StartsWith(s, PathOf(k1)) && StartsWith(s, PathOf(k2))
    ensures k1 == k2
  {
    assert PathOf(k1)[0] == s[0] == PathOf(k2)[0];
  }

  /** Every shared link reads back as the kind and id it was built from. */
  lemma {:induction false} ShareUrlRoundTrip(item: EchoMediaItem)
    ensures ParseShareUrl(ShareUrl(item)) == Some((KindOf(item), item.Id()))
  {
    var url := ShareUrl(item);
    var kind := KindOf(item);
    var rest := url[|MusicBase|..];
    assert rest == PathOf(kind) + item.Id();
    assert StartsWith(rest, PathOf(kind));
    forall k | StartsWith(rest, PathOf(k)) ensures k == kind {
      PathsPrefixFree(k, kind, rest);
    }
    assert rest[|PathOf(kind)|..] == item.Id();
  }

  /** Two items share the same link exactly when they have the same link kind and id. */
  lemma {:induction false} ShareUrlInjective(a: EchoMediaItem, b: EchoMediaItem)
    ensures ShareUrl(a) == ShareUrl(b) <==> KindOf(a) == KindOf(b) && a.Id() == b.Id()
  {
    if ShareUrl(a) == ShareUrl(b) {
      ShareUrlRoundTrip(a);
      ShareUrlRoundTrip(b);
    }
  }
}
