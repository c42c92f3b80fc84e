/**
 * The session state `YoutubeExtension` keeps between calls, as a class whose fields the
 * operations update in place:
 *  - `trackMap`, the track source of every album and playlist loaded so far, keyed by the id
 *    the playlist endpoint returned;
 *  - `loadedArtist`, the last artist page loaded;
 *  - `oldSearch`, the query of the last `searchTabs` call and the shelves it produced;
 *  - `authState`, the authentication state `onSetLoginUser` installs on the API client.
 *
 * Remote results (a loaded playlist, an artist page, search categories) are parameters.
 */
module Session {
  import opened Wrappers
  import opened Collections
  import opened Ytm
  import opened Echo
  import opened Auth
  import ExtConvertors

  /** The `PagedData<Track>` the playlist endpoint hands back: the tracks it yields. */
  datatype TrackSource = TrackSource(tracks: seq<Track>)

  /** `playlistEndPoint.loadFromPlaylist(...)`: the playlist record, its related-shelves id
      and its track source. */
  datatype LoadedPlaylist = LoadedPlaylist(playlist: YtmPlaylist, related: Option<string>, data: TrackSource)

  /** One category of a search answer: its row and the filter that narrows a search to it. */
  datatype SearchCategory = SearchCategory(layout: MediaItemLayout, filterParams: Option<string>)

  /** A filter chip of the song feed. */
  datatype FilterChip = FilterChip(params: string, text: LocalisedString)

  /** `oldSearch`: the query and the category shelves of the last search. */
  datatype SearchCache = SearchCache(query: string, shelves: seq<Shelf>)

  /** What `searchFeed` yields: category shelves from the cache, or one shelf per item. */
  datatype FeedEntry = CategoryShelf(shelf: Shelf) | ItemShelf(item: EchoMediaItem)

  /** Why `onSetLoginUser` fails. */
  datatype LoginError = NoCookie | NoAuth

  const AllTabId := "All"
  const AllTab := Tab(AllTabId, "All")
  const UnnamedTab := "???"
  const CookieKey := "cookie"
  const AuthKey := "auth"

  /** `YoutubeiAuthenticationState(api, headers, user.id.ifEmpty { null })`. */
  function LoginState(cookie: string, authorization: string, userId: string): (s: AuthState)
    ensures s.ownChannelId.Some? <==> userId != ""
    ensures s.ownChannelId.Some? ==> s.ownChannelId.value == userId
  {
    AuthState(cookie, authorization, if userId == "" then None else Some(userId))
  }

  /** After logging in as a user with an empty id, a 401 asks for login again; with an id it
      reports that user as unauthorised. */
  lemma {:induction false} LoginThenUnauthorized<T>(cookie: string, authorization: string, userId: string, block: AuthState -> Result<T, Failure>)
    requires block(LoginState(cookie, authorization, userId)) == Failure(ClientRequest(StatusUnauthorized))
    ensures WithUserAuth(Some(LoginState(cookie, authorization, userId)), block)
            == if userId == "" then Failure(LoginRequired) else Failure(Unauthorized(userId))
  {
    WithUserAuthClassification(Some(LoginState(cookie, authorization, userId)), block);
  }

  /** One shelf of `getArtistMediaItems`. The extension's language is British English, so
      the title shown and the title that decides the singles flag are the same string. */
  function ArtistShelf(layout: ArtistLayout, quality: Quality): (r: Shelf)
    ensures r.title == (if layout.title.Some? then layout.title.value.english else ExtConvertors.Unknown)
    ensures layout.subtitle.None? ==> r.subtitle.None?
    ensures layout.subtitle.Some? ==> r.subtitle == Some(layout.subtitle.value.english)
    ensures r.items == ExtConvertors.ToEchoMediaItems(layout.items.GetOr([]), ExtConvertors.IsSinglesTitle(layout.title), quality)
    ensures r.hasMore == layout.hasViewMore
  {
    var single := ExtConvertors.IsSinglesTitle(layout.title);
    Shelf(
      match layout.title
      case Some(t) => t.english
      case None => ExtConvertors.Unknown,
      match layout.subtitle
      case Some(t) => Some(t.english)
      case None => None,
      ExtConvertors.ToEchoMediaItems(layout.items.GetOr([]), single, quality),
      layout.hasViewMore)
  }

  /** In a "Singles" shelf an album without an item count counts one track; in any other
      shelf it has no count. */
  lemma {:induction false} SinglesAlbumTrackCount(layout: ArtistLayout, playlist: YtmPlaylist, quality: Quality)
    requires playlist.kind == Some(PlaylistType.Album) && playlist.itemCount.None?
    ensures var item := ExtConvertors.ToEchoMediaItem(YtmMediaItem.PlaylistItem(playlist), ExtConvertors.IsSinglesTitle(layout.title), quality);
            item.Some? && item.value.AlbumItem?
            && (item.value.album.tracks == Some(1) <==> layout.title.Some? && layout.title.value.english == ExtConvertors.Singles)
            && (item.value.album.tracks.None? <==> !(layout.title.Some? && layout.title.value.english == ExtConvertors.Singles))
  {
    var single := ExtConvertors.IsSinglesTitle(layout.title);
    var album := ExtConvertors.ToAlbum(playlist, single, quality);
    assert ExtConvertors.ToEchoMediaItem(YtmMediaItem.PlaylistItem(playlist), single, quality) == Some(AlbumItem(album));
  }

  /** The shelves of an artist page, `[]` when it has none. */
  function ArtistShelves(artist: YtmArtist, quality: Quality): (r: seq<Shelf>)
    ensures artist.layouts.None? ==> r == []
    ensures artist.layouts.Some? ==> |r| == |artist.layouts.value|
    ensures artist.layouts.Some? ==>
              forall i :: 0 <= i < |r| ==> r[i] == ArtistShelf(artist.layouts.value[i], quality)
  {
    MapOrEmpty(artist.layouts, (l: ArtistLayout) => ArtistShelf(l, quality))
  }

  /** The tab a filtered category offers: its filter, titled by its row title or "???". */
  function FilterTab(c: SearchCategory): Tab
    requires c.filterParams.Some?
  {
    Tab(c.filterParams.value, if c.layout.title.Some? then c.layout.title.value.english else UnnamedTab)
  }

  /** The tabs of a search answer: one per category that has a filter, in order. */
  function FilterTabs(categories: seq<SearchCategory>): (r: seq<Tab>)
    ensures |r| <= |categories|
  {
    if categories == [] then []
    else
      var rest := FilterTabs(categories[1..]);
      if categories[0].filterParams.Some? then [FilterTab(categories[0])] + rest else rest
  }

  /** Every search tab comes from a filtered category, and every filtered category offers
      its tab. */
  lemma {:induction false} FilterTabsExact(categories: seq<SearchCategory>)
    ensures forall t :: t in FilterTabs(categories) ==>
              exists c :: c in categories && c.filterParams.Some? && FilterTab(c) == t
    ensures forall c :: c in categories && c.filterParams.Some? ==> FilterTab(c) in FilterTabs(categories)
  {
    if categories != [] {
      var head, tail := categories[0], categories[1..];
      FilterTabsExact(tail);
      assert categories == [head] + tail;
      var rest := FilterTabs(tail);
      assert FilterTabs(categories) == if head.filterParams.Some? then [FilterTab(head)] + rest else rest;
    }
  }

  /** The tabs keep the order of the categories. */
  lemma {:induction false} FilterTabsAppend(a: seq<SearchCategory>, b: seq<SearchCategory>)
    ensures FilterTabs(a + b) == FilterTabs(a) + FilterTabs(b)
  {
    if a == [] {
      assert a + b == b;
    } else {
      assert (a + b)[0] == a[0];
      assert (a + b)[1..] == a[1..] + b;
      FilterTabsAppend(a[1..], b);
    }
  }

  /** The tabs of the song feed's filter chips, none without chips. */
  function ChipTabs(chips: Option<seq<FilterChip>>): (r: seq<Tab>)
    ensures chips.None? ==> r == []
    ensures chips.Some? ==> |r| == |chips.value|
    ensures chips.Some? ==>
              forall i :: 0 <= i < |r| ==> r[i] == Tab(chips.value[i].params, chips.value[i].text.english)
  {
    MapOrEmpty(chips, (c: FilterChip) => Tab(c.params, c.text.english))
  }

  /** The category rows of a search answer as shelves. */
  function CategoryShelves(categories: seq<SearchCategory>, quality: Quality): (r: seq<Shelf>)
    ensures |r| == |categories|
    ensures forall i :: 0 <= i < |r| ==> r[i] == ExtConvertors.ToMediaItemsContainer(categories[i].layout, quality)
  {
    seq(|categories|, i requires 0 <= i < |categories| => ExtConvertors.ToMediaItemsContainer(categories[i].layout, quality))
  }

  /** A fresh search answer, flattened: every item of every category, converted as
      non-singles, each on a shelf of its own. */
  function SearchItems(categories: seq<SearchCategory>, quality: Quality): (r: seq<FeedEntry>)
    ensures forall e :: e in r ==> e.ItemShelf?
    ensures forall e :: e in r && e.item.PlaylistItem? ==> e.item.playlist.id != ExtConvertors.LikedSongsId
  {
    if categories == [] then []
    else
      var items := ExtConvertors.ToEchoMediaItems(categories[0].layout.items, false, quality);
      seq(|items|, i requires 0 <= i < |items| => ItemShelf(items[i])) + SearchItems(categories[1..], quality)
  }

  /** The fresh answer holds exactly the converted items of its categories, each on a shelf
      of its own. */
  lemma {:induction false} SearchItemsExact(categories: seq<SearchCategory>, quality: Quality, e: FeedEntry)
    ensures e in SearchItems(categories, quality) <==>
              e.ItemShelf? && exists i :: 0 <= i < |categories|
                                && e.item in ExtConvertors.ToEchoMediaItems(categories[i].layout.items, false, quality)
  {
    if categories != [] {
      SearchItemsExact(categories[1..], quality, e);
      var items := ExtConvertors.ToEchoMediaItems(categories[0].layout.items, false, quality);
      var head := seq(|items|, i requires 0 <= i < |items| => ItemShelf(items[i]));
      assert SearchItems(categories, quality) == head + SearchItems(categories[1..], quality);
      assert e in head <==> e.ItemShelf? && e.item in items by {
        if e in head {
          var i :| 0 <= i < |head| && head[i] == e;
          assert items[i] in items;
        }
        if e.ItemShelf? && e.item in items {
          var i :| 0 <= i < |items| && items[i] == e.item;
          assert head[i] == e;
        }
      }
      if e.ItemShelf? && exists i :: 0 <= i < |categories[1..]|
                            && e.item in ExtConvertors.ToEchoMediaItems(categories[1..][i].layout.items, false, quality) {
        var i :| 0 <= i < |categories[1..]|
                 && e.item in ExtConvertors.ToEchoMediaItems(categories[1..][i].layout.items, false, quality);
        assert categories[1..][i] == categories[i + 1];
      }
      if e.ItemShelf? && exists i :: 0 <= i < |categories|
                            && e.item in ExtConvertors.ToEchoMediaItems(categories[i].layout.items, false, quality) {
        var i :| 0 <= i < |categories|
                 && e.item in ExtConvertors.ToEchoMediaItems(categories[i].layout.items, false, quality);
        if i > 0 {
          assert categories[1..][i - 1] == categories[i];
        }
      }
    }
  }

  /** The flattened answer keeps the order of the categories. */
  lemma {:induction false} SearchItemsAppend(a: seq<SearchCategory>, b: seq<SearchCategory>, quality: Quality)
    ensures SearchItems(a + b, quality) == SearchItems(a, quality) + SearchItems(b, quality)
  {
    if a == [] {
      assert a + b == b;
    } else {
      assert (a + b)[0] == a[0];
      assert (a + b)[1..] == a[1..] + b;
      SearchItemsAppend(a[1..], b, quality);
    }
  }

  /** Whether `searchFeed(query, tab)` is answered from the cache. */
  predicate ServedFromCache(cache: Option<SearchCache>, query: string, tab: Option<Tab>)
  {
    cache.Some? && cache.value.query == query && (tab.None? || tab.value.id == AllTabId)
  }

  class Session {
    var trackMap: map<string, TrackSource>
    var loadedArtist: Option<YtmArtist>
    var oldSearch: Option<SearchCache>
    var authState: Option<AuthState>

    constructor()
      ensures trackMap == map[] && loadedArtist == None && oldSearch == None && authState == None
    {
      trackMap := map[];
      loadedArtist := None;
      oldSearch := None;
      authState := None;
    }

    /** `loadAlbum`: caches the track source under the id the endpoint returned, which is
        the id of the album handed back, so `loadTracks` on that album finds it. */
    method LoadAlbum(loaded: LoadedPlaylist) returns (album: Album)
      modifies this
      ensures trackMap == old(trackMap)[loaded.playlist.id := loaded.data]
      ensures album == ExtConvertors.ToAlbum(loaded.playlist, false, High)
      ensures album.id in trackMap && trackMap[album.id] == loaded.data
      ensures old(trackMap).Keys <= trackMap.Keys
      ensures loadedArtist == old(loadedArtist) && oldSearch == old(oldSearch) && authState == old(authState)
    {
      trackMap := trackMap[loaded.playlist.id := loaded.data];
      album := ExtConvertors.ToAlbum(loaded.playlist, false, High);
    }

    /** `loadPlaylist`: as `loadAlbum`, converting with the related-shelves id. */
    method LoadPlaylist(loaded: LoadedPlaylist) returns (playlist: Playlist)
      modifies this
      ensures trackMap == old(trackMap)[loaded.playlist.id := loaded.data]
      ensures playlist == ExtConvertors.ToPlaylist(loaded.playlist, High, loaded.related)
      ensures playlist.id in trackMap && trackMap[playlist.id] == loaded.data
      ensures old(trackMap).Keys <= trackMap.Keys
      ensures loadedArtist == old(loadedArtist) && oldSearch == old(oldSearch) && authState == old(authState)
    {
      trackMap := trackMap[loaded.playlist.id := loaded.data];
      playlist := ExtConvertors.ToPlaylist(loaded.playlist, High, loaded.related);
    }

    /** `loadTracks(album)` and `loadTracks(playlist)`: the cached source, or nothing where
        `trackMap[id]!!` throws. */
    method LoadTracks(id: string) returns (r: Option<TrackSource>)
      ensures r.Some? <==> id in trackMap
      ensures r.Some? ==> r.value == trackMap[id]
    {
      if id in trackMap {
        r := Some(trackMap[id]);
      } else {
        r := None;
      }
    }

    /** `loadArtist`: remembers the page and converts it. */
    method LoadArtist(result: YtmArtist) returns (artist: Artist)
      modifies this
      ensures loadedArtist == Some(result)
      ensures artist == ExtConvertors.ToArtist(result, High)
      ensures trackMap == old(trackMap) && oldSearch == old(oldSearch) && authState == old(authState)
    {
      loadedArtist := Some(result);
      artist := ExtConvertors.ToArtist(result, High);
    }

    /** `loadUser`: loads the user's artist page and converts the remembered page, which
        is the one just loaded, so `loadedArtist!!` cannot fail. */
    method LoadUser(result: YtmArtist) returns (user: User)
      modifies this
      ensures loadedArtist == Some(result)
      ensures user == ExtConvertors.ToUser(result, High)
      ensures trackMap == old(trackMap) && oldSearch == old(oldSearch) && authState == old(authState)
    {
      var _ := LoadArtist(result);
      user := ExtConvertors.ToUser(loadedArtist.value, High);
    }

    /** `getArtistMediaItems(artist)`: the remembered page when it is the requested artist's,
        otherwise the page `fetched` from the service. */
    method ArtistMediaItems(artistId: string, fetched: YtmArtist, quality: Quality) returns (shelves: seq<Shelf>)
      ensures loadedArtist.Some? && loadedArtist.value.id == artistId ==>
                shelves == ArtistShelves(loadedArtist.value, quality)
      ensures !(loadedArtist.Some? && loadedArtist.value.id == artistId) ==>
                shelves == ArtistShelves(fetched, quality)
    {
      var page := fetched;
      if loadedArtist.Some? && loadedArtist.value.id == artistId {
        page := loadedArtist.value;
      }
      shelves := ArtistShelves(page, quality);
    }

    /** `searchTabs(query)`. With a query it caches the answer's category shelves under the
        query and offers "All" followed by one tab per filtered category; without one it
        offers the song feed's filter chips and leaves the cache alone. */
    method SearchTabs(query: Option<string>, categories: seq<SearchCategory>, chips: Option<seq<FilterChip>>, quality: Quality) returns (tabs: seq<Tab>)
      modifies this
      ensures query.Some? ==> oldSearch == Some(SearchCache(query.value, CategoryShelves(categories, quality)))
      ensures query.Some? ==> |tabs| >= 1 && tabs[0] == AllTab && tabs[1..] == FilterTabs(categories)
      ensures query.Some? ==> ServedFromCache(oldSearch, query.value, None) && ServedFromCache(oldSearch, query.value, Some(AllTab))
      ensures query.None? ==> oldSearch == old(oldSearch) && tabs == ChipTabs(chips)
      ensures trackMap == old(trackMap) && loadedArtist == old(loadedArtist) && authState == old(authState)
    {
      if query.Some? {
        oldSearch := Some(SearchCache(query.value, CategoryShelves(categories, quality)));
        tabs := [AllTab] + FilterTabs(categories);
      } else {
        tabs := ChipTabs(chips);
      }
    }

    /** `searchFeed(query, tab)`. For a query: the cached shelves when the cache holds this
        query and the tab is absent or "All", otherwise the fresh `answer`, item by item.
        Without a query: the rows of the song feed page `songFeed` filtered by the tab's
        chip, or nothing when there is no tab either. */
    method SearchFeed(query: Option<string>, tab: Option<Tab>, answer: seq<SearchCategory>, songFeed: seq<MediaItemLayout>, quality: Quality)
      returns (feed: seq<FeedEntry>)
      ensures query.Some? && ServedFromCache(oldSearch, query.value, tab) ==>
                |feed| == |oldSearch.value.shelves|
                && forall i :: 0 <= i < |feed| ==> feed[i] == CategoryShelf(oldSearch.value.shelves[i])
      ensures query.Some? && !ServedFromCache(oldSearch, query.value, tab) ==> feed == SearchItems(answer, quality)
      ensures query.None? && tab.Some? ==>
                |feed| == |songFeed|
                && forall i :: 0 <= i < |feed| ==> feed[i] == CategoryShelf(ExtConvertors.ToMediaItemsContainer(songFeed[i], quality))
      ensures query.None? && tab.None? ==> feed == []
    {
      if query.Some? {
        if ServedFromCache(oldSearch, query.value, tab) {
          var shelves := oldSearch.value.shelves;
          feed := seq(|shelves|, i requires 0 <= i < |shelves| => CategoryShelf(shelves[i]));
        } else {
          feed := SearchItems(answer, quality);
        }
      } else if tab.Some? {
        feed := seq(|songFeed|, i requires 0 <= i < |songFeed| => CategoryShelf(ExtConvertors.ToMediaItemsContainer(songFeed[i], quality)));
      } else {
        feed := [];
      }
    }

    /** `onSetLoginUser(user)`. Logging out clears the authentication state; logging in
        needs the user's "cookie" and "auth" extras and installs a state whose own channel
        id is the user's id, or none for an empty id. A failure leaves the state as it was. */
    method SetLoginUser(user: Option<User>) returns (r: Result<(), LoginError>)
      modifies this
      ensures user.None? ==> r.Success? && authState.None?
      ensures user.Some? && CookieKey !in user.value.extras ==> r == Failure(NoCookie) && authState == old(authState)
      ensures user.Some? && CookieKey in user.value.extras && AuthKey !in user.value.extras ==>
                r == Failure(NoAuth) && authState == old(authState)
      ensures user.Some? && CookieKey in user.value.extras && AuthKey in user.value.extras ==>
                r.Success? && authState == Some(LoginState(user.value.extras[CookieKey], user.value.extras[AuthKey], user.value.id))
      ensures trackMap == old(trackMap) && loadedArtist == old(loadedArtist) && oldSearch == old(oldSearch)
    {
      if user.None? {
        authState := None;
        return Success(());
      }
      var u := user.value;
      if CookieKey !in u.extras {
        return Failure(NoCookie);
      }
      if AuthKey !in u.extras {
        return Failure(NoAuth);
      }
      authState := Some(LoginState(u.extras[CookieKey], u.extras[AuthKey], u.id));
      r := Success(());
    }
  }
}
