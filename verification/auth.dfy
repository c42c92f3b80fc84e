/**
 * `withUserAuth`, the guard every account operation of `YoutubeExtension` runs behind, and
 * the two library operations that go through it without further state: the editable
 * playlist list and the library feed.
 *
 * The guarded block is a parameter: a total function of the authentication state to either
 * a value or the exception it throws.
 */
module Auth {
  import opened Wrappers
  import opened Ytm
  import opened Echo
  import ExtConvertors

  /** `YoutubeiAuthenticationState`, reduced to the two request headers it carries and the
      account's own channel id. */
  datatype AuthState = AuthState(cookie: string, authorization: string, ownChannelId: Option<string>)

  /** What a guarded block throws: a `ClientRequestException` (an HTTP 4xx answer) with its
      status code, or any other exception. */
  datatype Failure = ClientRequest(status: int) | OtherFailure(message: string)

  /** What escapes `withUserAuth`: `ClientException.LoginRequired`,
      `ClientException.Unauthorized(userId)`, or the block's own exception, rethrown. */
  datatype AuthError = LoginRequired | Unauthorized(userId: string) | Rethrown(failure: Failure)

  const StatusUnauthorized := 401

  /** `withUserAuth(block)`. */
  function WithUserAuth<T>(state: Option<AuthState>, block: AuthState -> Result<T, Failure>): (r: Result<T, AuthError>)
    ensures state.None? ==> r == Failure(LoginRequired)
    ensures state.Some? && block(state.value).Success? ==> r == Success(block(state.value).value)
    ensures r.Success? ==> state.Some? && block(state.value) == Success(r.value)
  {
    match state
    case None => Failure(LoginRequired)
    case Some(s) =>
      match block(s)
      case Success(v) => Success(v)
      case Failure(ClientRequest(status)) =>
        if status == StatusUnauthorized then
          match s.ownChannelId
          case Some(user) => Failure(Unauthorized(user))
          case None => Failure(LoginRequired)
        else Failure(Rethrown(ClientRequest(status)))
      case Failure(e) => Failure(Rethrown(e))
  }

  /** The four outcomes of a failed guarded call, each exactly characterised: login is
      required when there is no session or a 401 meets a session without a channel id, a
      401 with a channel id reports that id, and any other exception passes unchanged. */
  lemma {:induction false} WithUserAuthClassification<T>(state: Option<AuthState>, block: AuthState -> Result<T, Failure>)
    ensures var r := WithUserAuth(state, block);
            (r == Failure(LoginRequired) <==>
               state.None?
               || (block(state.value) == Failure(ClientRequest(StatusUnauthorized)) && state.value.ownChannelId.None?))
            && (forall user :: r == Failure(Unauthorized(user)) <==>
                  state.Some? && block(state.value) == Failure(ClientRequest(StatusUnauthorized))
                  && state.value.ownChannelId == Some(user))
            && (forall f :: r == Failure(Rethrown(f)) <==>
                  state.Some? && block(state.value) == Failure(f) && f != ClientRequest(StatusUnauthorized))
  {
    var r := WithUserAuth(state, block);
    if state.Some? {
      match block(state.value)
      case Success(_) =>
      case Failure(ClientRequest(status)) =>
        assert status == StatusUnauthorized ==> r.error != Rethrown(ClientRequest(status));
      case Failure(_) =>
    }
  }

  // ---------------------------------------------------------------------------
  // Library operations
  // ---------------------------------------------------------------------------

  /** The account playlists `listEditablePlaylists` offers: every one except the liked-songs
      sentinel, converted in order. */
  function EditablePlaylists(playlists: seq<YtmPlaylist>, quality: Quality): (r: seq<Playlist>)
    ensures |r| <= |playlists|
    ensures forall p :: p in r ==> p.id != ExtConvertors.LikedSongsId
    ensures forall p :: p in r ==> exists q :: q in playlists && p == ExtConvertors.ToPlaylist(q, quality, None)
    ensures forall q :: q in playlists && q.id != ExtConvertors.LikedSongsId ==> ExtConvertors.ToPlaylist(q, quality, None) in r
  {
    if playlists == [] then []
    else
      var rest := EditablePlaylists(playlists[1..], quality);
      var q := playlists[0];
      assert forall x :: x in playlists[1..] ==> x in playlists;
      if q.id != ExtConvertors.LikedSongsId then [ExtConvertors.ToPlaylist(q, quality, None)] + rest else rest
  }

  /** The listing keeps the account's order: a longer list gives the listing of its front
      followed by that of its back. */
  lemma {:induction false} EditablePlaylistsAppend(a: seq<YtmPlaylist>, b: seq<YtmPlaylist>, quality: Quality)
    ensures EditablePlaylists(a + b, quality) == EditablePlaylists(a, quality) + EditablePlaylists(b, quality)
  {
    if a == [] {
      assert a + b == b;
    } else {
      assert (a + b)[0] == a[0];
      assert (a + b)[1..] == a[1..] + b;
      EditablePlaylistsAppend(a[1..], b, quality);
    }
  }

  /** `listEditablePlaylists`: the account's playlists, fetched behind the guard. */
  function ListEditablePlaylists(state: Option<AuthState>, fetch: AuthState -> Result<seq<YtmPlaylist>, Failure>, quality: Quality): (r: Result<seq<Playlist>, AuthError>)
    ensures r.Success? <==> state.Some? && fetch(state.value).Success?
    ensures r.Success? ==> r.value == EditablePlaylists(fetch(state.value).value, quality)
    ensures r.Success? ==> forall p :: p in r.value ==> p.id != ExtConvertors.LikedSongsId
  {
    WithUserAuth(state, (s: AuthState) =>
      match fetch(s)
      case Success(playlists) => Success(EditablePlaylists(playlists, quality))
      case Failure(e) => Failure(e))
  }

  const LibraryLanding := "FEmusic_library_landing"

  /** `getLibraryTabs`: five tabs, each browsing a page of its own, the first of them the
      landing page that the library feed shows when no tab is chosen. */
  function LibraryTabs(): (tabs: seq<Tab>)
    ensures |tabs| == 5 && tabs[0] == Tab(LibraryLanding, "All")
    ensures forall i, j :: 0 <= i < j < |tabs| ==> tabs[i].id != tabs[j].id
  {
    [
      Tab(LibraryLanding, "All"),
      Tab("FEmusic_history", "History"),
      Tab("FEmusic_liked_playlists", "Playlists"),
      Tab("FEmusic_liked_videos", "Songs"),
      Tab("FEmusic_library_corpus_track_artists", "Artists")
    ]
  }

  /** The browse id `getLibraryFeed` loads: the tab's id, or the landing page without one. */
  function LibraryBrowseId(tab: Option<Tab>): (id: string)
    ensures tab.Some? ==> id == tab.value.id
    ensures tab.None? ==> id == LibraryTabs()[0].id
  {
    match tab
    case Some(t) => t.id
    case None => LibraryLanding
  }

  /** `getLibraryFeed(tab)`, one page: the items `load` returns for the browse id, converted
      as non-singles, behind the guard. */
  function LibraryFeed(state: Option<AuthState>, tab: Option<Tab>, load: string -> Result<seq<YtmMediaItem>, Failure>, quality: Quality): (r: Result<seq<EchoMediaItem>, AuthError>)
    ensures r.Success? <==> state.Some? && load(LibraryBrowseId(tab)).Success?
    ensures r.Success? ==> r.value == ExtConvertors.ToEchoMediaItems(load(LibraryBrowseId(tab)).value, false, quality)
    ensures r.Success? ==> forall m :: m in r.value && m.PlaylistItem? ==> m.playlist.id != ExtConvertors.LikedSongsId
  {
    var browseId := LibraryBrowseId(tab);
    WithUserAuth(state, (_: AuthState) =>
      match load(browseId)
      case Success(items) => Success(ExtConvertors.ToEchoMediaItems(items, false, quality))
      case Failure(e) => Failure(e))
  }
}
