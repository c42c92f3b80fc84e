# A verified model of the YouTube Music extension for Echo

The extension connects the Echo music player to YouTube Music. This project models in
Dafny the logic between the remote service and the player:

- **Converters.** The record converters turn the service's raw catalog records
  (`YtmSong`, `YtmPlaylist`, `YtmArtist`, layouts) into Echo's tracks, albums,
  playlists, artists, users and shelves. Both copies are modelled, the current one in
  `ext/` and the older one in `app/`.
- **Playlist edits.** The playlist mutation engine turns index-based remove, insert and
  move requests into the edit endpoint's anchor-based `Remove`, `Add` and `Move`
  actions. A reference semantics of that endpoint is included, and against it each
  request is proved to do what it asks.
- **HLS streams.** The stream selection of `getHlsStreams` reads the audio renditions
  (`#EXT-X-MEDIA`, RFC 8216 section 4.3.4.1) and the variant streams
  (`#EXT-X-STREAM-INF`, RFC 8216 section 4.3.4.2) out of a fetched HLS multivariant
  playlist.
- **Auth guard.** `withUserAuth` guards every account operation. It tells "not logged
  in" apart from "session no longer valid", and is modelled with the library operations
  that go through it.
- **Share links.** `onShare` builds a share link per item kind.
- **Session state.** The session class holds the track-list cache `trackMap`, the
  remembered artist page, the cached last search and the authentication state.
  `loadAlbum`, `loadPlaylist`, `loadTracks`, `loadArtist`, `loadUser`,
  `getArtistMediaItems`, `searchTabs`, `searchFeed` and `onSetLoginUser` read
  and update it.

Remote calls are inputs to the model. A loaded playlist, an artist page, a search answer,
the set ids the edit endpoint returns and the manifest text are passed in as parameters.
A guarded block is a function from the authentication state to a value or the exception
it throws.

Modules, one file each:

| file | module | what it holds |
|---|---|---|
| `wrappers.dfy` | `Wrappers`, `Collections` | Kotlin's nullable values and exceptions; `mapNotNull` and `map ?: emptyList()` |
| `text.dfy` | `Text` | `substringAfter`, `joinToString`/`split`, 32-bit `Int` wrap-around, `toString`/`toIntOrNull` |
| `ytm.dfy` | `Ytm` | the raw catalog records |
| `echo.dfy` | `Echo` | the host models the `ext/` copy builds |
| `ext_convertors.dfy` | `ExtConvertors` | the `ext/` converters |
| `app_convertors.dfy` | `AppConvertors` | the `app/` converters, with their own older host models |
| `playlist_edit.dfy` | `PlaylistEdit` | the three edit translations |
| `edit_semantics.dfy` | `EditSemantics` | what the edit endpoint does with actions, and the correctness of the translations |
| `hls_manifest.dfy` | `HlsManifest` | the manifest scanner |
| `auth.dfy` | `Auth` | `withUserAuth`, the editable-playlist listing, the library tabs and feed |
| `share.dfy` | `Share` | `onShare` and the reading of a link back |
| `session.dfy` | `Session` | the `Session` class and the shelf/tab builders it uses |

An edit request is modelled by the `EditRun` it produces. The run holds every
`editPlaylist` call in order, each as a list of actions, and the exception that ended the
request, if any. An index outside the list, a `!!` on a missing set id and a missing
`playlistEditResults` are error values, not preconditions.

The two copies of the converters differ, and each is modelled as written:

- `ext/` `toPlaylist` computes `isEditable` as `owner_id.toBoolean()`
  (ext/src/main/java/dev/brahmkshatriya/echo/extension/Convertors.kt:81). The `app/` copy
  compares the owner with the session's own channel id
  (app/src/main/java/dev/brahmkshatriya/echo/extension/Convertors.kt:78).
- `ext/` `toPlaylist` gives the subtitle `""` when the record has an empty artist
  list. The year is used only when the list is absent.

## Model

| member | source | states |
|---|---|---|
| `Collections.MapNotNullFrom` | ext/src/main/java/dev/brahmkshatriya/echo/extension/Convertors.kt:37-39 | every result `mapNotNull` keeps is the non-null image of some input |
| `Collections.MapNotNullKeeps` | ext/src/main/java/dev/brahmkshatriya/echo/extension/Convertors.kt:37-39 | every non-null image of an input is among the results of `mapNotNull` |
| `Collections.MapNotNullAppend` | ext/src/main/java/dev/brahmkshatriya/echo/extension/Convertors.kt:37-39 | `mapNotNull` keeps input order: it distributes over concatenation |
| `Collections.MapOrEmpty` | ext/src/main/java/dev/brahmkshatriya/echo/extension/Convertors.kt:83 | `list?.map(f) ?: emptyList()` is empty for a null list and otherwise maps element by element, keeping length and order |
| `Text.SubstringAfter` | ext/src/main/java/dev/brahmkshatriya/echo/extension/Convertors.kt:182 | `substringAfter` returns the text unchanged when the delimiter is absent, and otherwise returns exactly the text after its first occurrence |
| `Text.SubstringAfterPrefix` | ext/src/main/java/dev/brahmkshatriya/echo/extension/Convertors.kt:182 | stripping a delimiter placed in front of a text gives that text back, even when the text contains the delimiter again |
| `Text.SplitJoinRoundTrip` | app/src/main/java/dev/brahmkshatriya/echo/extension/Convertors.kt:74 | splitting a `joinToString(",")` result on "," gives the original list back when no element contains a comma |
| `Text.Wrap32` | ext/src/main/java/dev/brahmkshatriya/echo/extension/YoutubeExtension.kt:610-611 | 32-bit `Int` arithmetic always yields a 32-bit value and agrees with exact arithmetic when no overflow happens |
| `Text.IntToStringRoundTrip` | ext/src/main/java/dev/brahmkshatriya/echo/extension/YoutubeExtension.kt:200-205 | `toInt()` reads back every 32-bit value that `toString()` wrote |
| `Text.ToIntOrNull` | ext/src/main/java/dev/brahmkshatriya/echo/extension/YoutubeExtension.kt:201-204 | `toInt()` succeeds exactly on an optional `+` or `-` followed by at least one decimal digit whose signed value fits a 32-bit `Int`, and then returns that value |
| `ExtConvertors.GetCover` | ext/src/main/java/dev/brahmkshatriya/echo/extension/Convertors.kt:135-143 | the synthesised cover is cropped and is the image host's path, then the video id, then the file for the quality tier (`mqdefault.jpg` for LOW, `maxresdefault.jpg` for HIGH) |
| `ExtConvertors.GetCoverInjective` | ext/src/main/java/dev/brahmkshatriya/echo/extension/Convertors.kt:139-142 | two synthesised covers are equal only for the same video and the same quality tier |
| `ExtConvertors.ToArtist` | ext/src/main/java/dev/brahmkshatriya/echo/extension/Convertors.kt:145-155 | `YtmArtist.toArtist` keeps id, a present name, description and followers, uses "Unknown" for a missing name, and takes the cover from the thumbnail provider |
| `ExtConvertors.ToUser` | ext/src/main/java/dev/brahmkshatriya/echo/extension/Convertors.kt:157-165 | `YtmArtist.toUser` keeps the id and a present name, uses "Unknown" for a missing name, and takes the cover from the thumbnail provider |
| `ExtConvertors.UserToArtist` | ext/src/main/java/dev/brahmkshatriya/echo/extension/Convertors.kt:167-174 | `User.toArtist` keeps id, name, cover and extras exactly, and sets no description or follower count |
| `ExtConvertors.UserArtistProjection` | ext/src/main/java/dev/brahmkshatriya/echo/extension/Convertors.kt:145-174 | `toUser` followed by `User.toArtist` equals `toArtist` with description and follower count dropped |
| `ExtConvertors.ToAlbum` | ext/src/main/java/dev/brahmkshatriya/echo/extension/Convertors.kt:93-109 | `toAlbum` keeps id, duration and description; the title falls back to "Unknown"; the cover comes from the thumbnail provider; the track count is `item_count`, else 1 for a single, else null; release date and subtitle are the year; the artists are the record artists converted one for one, in order, or none |
| `ExtConvertors.ToPlaylist` | ext/src/main/java/dev/brahmkshatriya/echo/extension/Convertors.kt:73-91 | `toPlaylist` keeps the id; the title falls back to "Unknown"; extras hold "relatedId" exactly when `related` is non-null; `isEditable` iff `owner_id.toBoolean()`; the authors are the record artists converted to users one for one, in order; the subtitle is the artists' names (each name, or "Unknown" when missing) joined with ", ", or the year when there is no artist list |
| `ExtConvertors.KotlinToBoolean` | ext/src/main/java/dev/brahmkshatriya/echo/extension/Convertors.kt:81 | `owner_id.toBoolean()` holds iff the owner id is non-null and reads "true" with any letter case |
| `ExtConvertors.PlaylistSubtitleNamesAuthors` | ext/src/main/java/dev/brahmkshatriya/echo/extension/Convertors.kt:88 | when the record lists artists, the subtitle is exactly the authors' display names joined with ", " |
| `ExtConvertors.ToTrack` | ext/src/main/java/dev/brahmkshatriya/echo/extension/Convertors.kt:111-133 | `toTrack` keeps the id; the title falls back to "Unknown"; the artists are the song's artists converted one for one, in order, or none; "relatedId", "lyricsId" and "setId" are extras exactly when their inputs are non-null, and nothing else is; the cover is the provider's or else `getCover`; the album and release date come from the converted album; `liked` is `is_explicit` |
| `ExtConvertors.ToEchoMediaItem` | ext/src/main/java/dev/brahmkshatriya/echo/extension/Convertors.kt:52-71 | song to track; ALBUM-typed playlist to album; any other playlist to playlist except "VLSE", which gives null; artist to artist; anything else null. Each case is an if-and-only-if, the id is kept, and each non-null result wraps that case's own conversion of the record |
| `ExtConvertors.ToEchoMediaItems` | ext/src/main/java/dev/brahmkshatriya/echo/extension/YoutubeExtension.kt:357-359 | converting a list of items never yields more items than given, never yields the "VLSE" playlist, and keeps every item that converts |
| `ExtConvertors.ToEchoMediaItemsFrom` | ext/src/main/java/dev/brahmkshatriya/echo/extension/YoutubeExtension.kt:357-359 | every converted item is the conversion of some item of the row |
| `ExtConvertors.ToEchoMediaItemsAppend` | ext/src/main/java/dev/brahmkshatriya/echo/extension/YoutubeExtension.kt:357-359 | conversion keeps the row order: converting a concatenation concatenates the conversions |
| `ExtConvertors.ToMediaItemsContainer` | ext/src/main/java/dev/brahmkshatriya/echo/extension/Convertors.kt:27-50 | the row's title (or "Unknown") titles the shelf and its subtitle, if any, is the subtitle; its items are converted with the singles flag set iff the English title is "Singles"; a "more" page exists iff the row has a view-more browse id |
| `ExtConvertors.SinglesFlagIsLocaleIndependent` | ext/src/main/java/dev/brahmkshatriya/echo/extension/Convertors.kt:32-38 | the converted items depend on the English title only, not on the display language |
| `ExtConvertors.AccountsJson` | ext/src/main/java/dev/brahmkshatriya/echo/extension/Convertors.kt:178-184 | the account switcher's body is decoded from the whole text when `)]}'` is absent, and otherwise from exactly what follows its first occurrence, everything up to and including it being stripped |
| `ExtConvertors.AccountsJsonStripsPrefix` | ext/src/main/java/dev/brahmkshatriya/echo/extension/Convertors.kt:182 | a body made of the prefix followed by JSON decodes from exactly that JSON |
| `AppConvertors.SongThumbnailMatchesExtCover` | app/src/main/java/dev/brahmkshatriya/echo/extension/Convertors.kt:136-142 | the older `SongThumbnailProvider` and the newer `getCover` give the same URL for every video and quality |
| `AppConvertors.SongThumbnailInjective` | app/src/main/java/dev/brahmkshatriya/echo/extension/Convertors.kt:136-142 | `SongThumbnailProvider` gives distinct URLs to distinct videos and quality tiers |
| `AppConvertors.SongThumbnailUrl` | app/src/main/java/dev/brahmkshatriya/echo/extension/Convertors.kt:136-142 | the provider's URL is the image host's path, then the video id, then `mqdefault.jpg` for LOW or `maxresdefault.jpg` for HIGH |
| `AppConvertors.ToArtist` | app/src/main/java/dev/brahmkshatriya/echo/extension/Convertors.kt:144-154 | the nullable `toArtist` returns null iff the name is missing, and otherwise keeps id, name, description and followers and takes the cover from the thumbnail provider |
| `AppConvertors.ToArtists` | app/src/main/java/dev/brahmkshatriya/echo/extension/Convertors.kt:97-99 | `artists?.mapNotNull { it.toArtist() } ?: emptyList()` is empty for a null list and never longer than the input |
| `AppConvertors.ToArtistsKeepsNamed` | app/src/main/java/dev/brahmkshatriya/echo/extension/Convertors.kt:97-99 | converting an artist list keeps exactly the named artists, in their order, each converted |
| `AppConvertors.ToTrack` | app/src/main/java/dev/brahmkshatriya/echo/extension/Convertors.kt:110-127 | `toTrack` keeps id and duration; the title falls back to "Unknown"; the artists are the song's artists through the nameless-dropping `ToArtists`; the album is the converted album; the cover is always the synthesised one; `liked` is always false; the extras are {"relatedId": id} or empty |
| `AppConvertors.ItemTracks` | app/src/main/java/dev/brahmkshatriya/echo/extension/Convertors.kt:102 | a playlist's items become tracks one for one and in order, each the converted song, or none when absent |
| `AppConvertors.ToAlbum` | app/src/main/java/dev/brahmkshatriya/echo/extension/Convertors.kt:89-108 | `toAlbum` keeps id, duration and description; the cover comes from the thumbnail provider; the artists are the record artists through the nameless-dropping `ToArtists`; `numberOfTracks` is `item_count`, else 1 for a single, else null; the track list is the items converted in order; release date and subtitle are the year |
| `AppConvertors.SumDurationsAppend` | app/src/main/java/dev/brahmkshatriya/echo/extension/Convertors.kt:83 | the summed item duration splits over concatenation |
| `AppConvertors.SumDurations` | app/src/main/java/dev/brahmkshatriya/echo/extension/Convertors.kt:83 | `sumOf { it.duration ?: 0 }` is 0 when no item has a duration, and never negative when no item duration is |
| `AppConvertors.ToPlaylist` | app/src/main/java/dev/brahmkshatriya/echo/extension/Convertors.kt:69-87 | `isEditable` iff the owner is non-null and equals the signed-in channel; the cover comes from the thumbnail provider; the authors are the record artists through the nameless-dropping `ToArtists`; the tracks are the items converted in order; "relatedId" and "item_set_ids" (joined with ",") are extras only when present; the subtitle is the non-empty description, else the year; the creation date is the year; the duration is `total_duration`, else the sum of item durations with missing ones as 0 |
| `AppConvertors.PlaylistExtras` | app/src/main/java/dev/brahmkshatriya/echo/extension/Convertors.kt:72-74 | the playlist extras hold "relatedId" exactly when `related` is non-null and "item_set_ids" (joined with ",") exactly when the record has set ids, and nothing else |
| `AppConvertors.ItemSetIdsRoundTrip` | app/src/main/java/dev/brahmkshatriya/echo/extension/Convertors.kt:74 | splitting the "item_set_ids" extra on "," gives the slot ids back when none contains a comma |
| `AppConvertors.ToEchoMediaItem` | app/src/main/java/dev/brahmkshatriya/echo/extension/Convertors.kt:51-67 | song to track; ALBUM-typed playlist to album; every other playlist to playlist; named artist to artist; nameless artist and anything else null. Each case is an if-and-only-if, and each non-null result wraps that case's own conversion of the record |
| `AppConvertors.ToMediaItemsContainer` | app/src/main/java/dev/brahmkshatriya/echo/extension/Convertors.kt:25-49 | the title falls back to "Unknown" and the subtitle, if any, is kept; items are converted with the singles flag set iff the English title is "Singles"; a "more" flow exists iff there is a view-more browse id |
| `AppConvertors.TrackVariantsAgree` | app/src/main/java/dev/brahmkshatriya/echo/extension/Convertors.kt:110-127 | for a song without a thumbnail provider both copies agree on id, title, cover and duration, and disagree on `liked` exactly for explicit songs |
| `AppConvertors.MediaItemVariantsAgree` | app/src/main/java/dev/brahmkshatriya/echo/extension/Convertors.kt:57-65 | both copies classify non-artist items alike, except that only the newer one drops the "VLSE" playlist |
| `PlaylistEdit.SetIdAt` | ext/src/main/java/dev/brahmkshatriya/echo/extension/YoutubeExtension.kt:599 | `tracks.getOrNull(index)?.extras?.get("setId")` is non-null iff the index is in bounds and that track has a set id |
| `PlaylistEdit.RemoveActions` | ext/src/main/java/dev/brahmkshatriya/echo/extension/YoutubeExtension.kt:584-587 | one Remove per requested index, in index-list order, carrying that track's id and set id from the list as given; the first index out of bounds or without a set id throws |
| `PlaylistEdit.RemoveTracks` | ext/src/main/java/dev/brahmkshatriya/echo/extension/YoutubeExtension.kt:582-590 | `removeTracksFromPlaylist` makes exactly one edit call with all the removals, or no call when an index fails |
| `PlaylistEdit.AddTracks` | ext/src/main/java/dev/brahmkshatriya/echo/extension/YoutubeExtension.kt:592-604 | the first call holds one Add per new track, in order; a null edit result throws after it; when the pre-insertion track at `index` has a set id, a second call moves every returned set id before it, and otherwise there is no second call |
| `PlaylistEdit.MoveTrack` | ext/src/main/java/dev/brahmkshatriya/echo/extension/YoutubeExtension.kt:606-618 | `moveTrackInPlaylist` throws when the track at `fromIndex` has no set id; otherwise it makes one call with one Move anchored on index `toIndex` (backward) or `toIndex + 1` (forward) of the pre-move list, or no call when there is no set id at the anchor |
| `PlaylistEdit.WrapHarmless` | ext/src/main/java/dev/brahmkshatriya/echo/extension/YoutubeExtension.kt:610-611 | the 32-bit overflow of `fromIndex - toIndex` and `toIndex + before` never changes which slot is the anchor |
| `EditSemantics.RemoveTracksCorrect` | ext/src/main/java/dev/brahmkshatriya/echo/extension/YoutubeExtension.kt:582-590 | on a list that mirrors the playlist, with all indexes in bounds, the removal call leaves exactly the slots whose set ids were not at the requested indexes |
| `EditSemantics.RemovedPositions` | ext/src/main/java/dev/brahmkshatriya/echo/extension/YoutubeExtension.kt:584-587 | with distinct set ids, a position survives the removal iff it was not requested |
| `EditSemantics.ApplyAdds` | ext/src/main/java/dev/brahmkshatriya/echo/extension/YoutubeExtension.kt:595-596 | the Add call appends one new slot per new track, in order, under the minted set ids |
| `EditSemantics.ApplyAnchoredMoves` | ext/src/main/java/dev/brahmkshatriya/echo/extension/YoutubeExtension.kt:599-603 | moving the new slots one by one before the same anchor places them as one block, in their original order, right before the anchor |
| `EditSemantics.AddTracksCorrect` | ext/src/main/java/dev/brahmkshatriya/echo/extension/YoutubeExtension.kt:592-604 | `addTracksToPlaylist` inserts the new tracks, in order, as one block in front of the slot at `index`; when `index` is out of bounds they stay appended at the end |
| `EditSemantics.MoveTrackCorrect` | ext/src/main/java/dev/brahmkshatriya/echo/extension/YoutubeExtension.kt:606-618 | when there is a slot at the anchor index, the move puts the track from `fromIndex` at `toIndex` and keeps the other tracks in order |
| `EditSemantics.MoveGeometry` | ext/src/main/java/dev/brahmkshatriya/echo/extension/YoutubeExtension.kt:609-611 | a Move fed the set ids at `fromIndex` and at the anchor index takes the slot out and puts it at `toIndex` |
| `EditSemantics.MoveToLastIsDropped` | ext/src/main/java/dev/brahmkshatriya/echo/extension/YoutubeExtension.kt:610-612 | a forward move onto the last position makes no edit call, although that request would change the order |
| `HlsManifest.UnlinesLines` | ext/src/main/java/dev/brahmkshatriya/echo/extension/YoutubeExtension.kt:200-205 | splitting the manifest into lines loses and adds no character |
| `HlsManifest.LinesUnlines` | ext/src/main/java/dev/brahmkshatriya/echo/extension/YoutubeExtension.kt:200-205 | the line split is the only well-formed way of writing the text as lines |
| `HlsManifest.LinesWellFormed` | ext/src/main/java/dev/brahmkshatriya/echo/extension/YoutubeExtension.kt:200-205 | the split yields at least one line, no line holds a terminator, every line but the last ends with one and the last ends with none |
| `HlsManifest.MatchAudio` | ext/src/main/java/dev/brahmkshatriya/echo/extension/YoutubeExtension.kt:196 | the audio pattern's reported match in a line is valid, starts leftmost, and takes the longest URI and then the longest group id |
| `HlsManifest.AudioAtMostOnePerLine` | ext/src/main/java/dev/brahmkshatriya/echo/extension/YoutubeExtension.kt:196 | once a line's audio match is reported, no further match starts in that line |
| `HlsManifest.AudioOf` | ext/src/main/java/dev/brahmkshatriya/echo/extension/YoutubeExtension.kt:196-201 | a line yields an audio rendition iff the audio pattern matches somewhere in it |
| `HlsManifest.AudioScan` | ext/src/main/java/dev/brahmkshatriya/echo/extension/YoutubeExtension.kt:200-202 | there is at most one audio match per line |
| `HlsManifest.AudioScanPerLine` | ext/src/main/java/dev/brahmkshatriya/echo/extension/YoutubeExtension.kt:196-201 | `findAll` with the audio pattern is, line by line in order, the match of each line that has one |
| `HlsManifest.AudioScanMembers` | ext/src/main/java/dev/brahmkshatriya/echo/extension/YoutubeExtension.kt:196-201 | an audio rendition is listed iff some line of the manifest matches the audio pattern with it |
| `HlsManifest.AudioScanAppend` | ext/src/main/java/dev/brahmkshatriya/echo/extension/YoutubeExtension.kt:196-201 | audio renditions are listed in the order of their lines |
| `HlsManifest.VideoMatchDigits` | ext/src/main/java/dev/brahmkshatriya/echo/extension/YoutubeExtension.kt:197 | in a video match the width and height digit runs are maximal, so the resolution attribute fixes them |
| `HlsManifest.MatchStreamInf` | ext/src/main/java/dev/brahmkshatriya/echo/extension/YoutubeExtension.kt:197 | the video pattern's reported match on a header line is valid, starts leftmost, and stops at the last resolution attribute that completes it |
| `HlsManifest.VideoScan` | ext/src/main/java/dev/brahmkshatriya/echo/extension/YoutubeExtension.kt:203-205 | every video match's height is a non-empty run of digits |
| `HlsManifest.HeaderHeight` | ext/src/main/java/dev/brahmkshatriya/echo/extension/YoutubeExtension.kt:197 | the height a header line reports is the non-empty digit run between `x` and the comma of its reported match |
| `HlsManifest.VideoScanSkip` | ext/src/main/java/dev/brahmkshatriya/echo/extension/YoutubeExtension.kt:197-205 | the video scan reports the first header line that ends with `\n` and has a line after it, with that whole next line as URI, and resumes after the URI line |
| `HlsManifest.VideoScanNone` | ext/src/main/java/dev/brahmkshatriya/echo/extension/YoutubeExtension.kt:197-205 | without a header line before the last line there is no video stream |
| `HlsManifest.VideoScanFrom` | ext/src/main/java/dev/brahmkshatriya/echo/extension/YoutubeExtension.kt:197-205 | every video entry is read from a `\n`-terminated header line and the whole line after it |
| `HlsManifest.AudioStreams` | ext/src/main/java/dev/brahmkshatriya/echo/extension/YoutubeExtension.kt:200-202 | the audio list has one stream per match, in order, iff every group id parses as an `Int`; otherwise the failure names an unparsable group id |
| `HlsManifest.VideoStreams` | ext/src/main/java/dev/brahmkshatriya/echo/extension/YoutubeExtension.kt:203-205 | the video list has one stream per match, in order, iff every height parses as an `Int`; otherwise the failure names an unparsable height |
| `HlsManifest.HlsStreams` | ext/src/main/java/dev/brahmkshatriya/echo/extension/YoutubeExtension.kt:198-207 | `getHlsStreams` succeeds iff both lists parse, even for music; it returns the audio list for music and the audio list followed by the video list otherwise; a bad group id fails it first, otherwise a bad height |
| `HlsManifest.HlsStreamsOrder` | ext/src/main/java/dev/brahmkshatriya/echo/extension/YoutubeExtension.kt:206 | for music every returned stream is audio; otherwise the audio streams come first, then exactly the video streams; all are HLS |
| `Auth.WithUserAuth` | ext/src/main/java/dev/brahmkshatriya/echo/extension/YoutubeExtension.kt:517-532 | no session fails with LoginRequired; a successful block's value passes through, and only then does the call succeed |
| `Auth.WithUserAuthClassification` | ext/src/main/java/dev/brahmkshatriya/echo/extension/YoutubeExtension.kt:520-531 | LoginRequired iff there is no session, or a 401 meets a session without an own channel id; Unauthorized(user) iff a 401 meets a session whose channel id is user; any other failure is rethrown unchanged, and only then |
| `Auth.EditablePlaylists` | ext/src/main/java/dev/brahmkshatriya/echo/extension/YoutubeExtension.kt:562-565 | the listing never contains "VLSE", holds only converted account playlists, and holds every account playlist other than "VLSE" |
| `Auth.EditablePlaylistsAppend` | ext/src/main/java/dev/brahmkshatriya/echo/extension/YoutubeExtension.kt:561-566 | the editable listing keeps the account's playlist order |
| `Auth.ListEditablePlaylists` | ext/src/main/java/dev/brahmkshatriya/echo/extension/YoutubeExtension.kt:561-566 | `listEditablePlaylists` succeeds iff there is a session and the fetch succeeds; it then returns the filtered, converted playlists, none of them "VLSE" |
| `Auth.LibraryTabs` | ext/src/main/java/dev/brahmkshatriya/echo/extension/YoutubeExtension.kt:508-515 | the library has five tabs with distinct browse ids, the first being "All" on the landing page |
| `Auth.LibraryBrowseId` | ext/src/main/java/dev/brahmkshatriya/echo/extension/YoutubeExtension.kt:535 | the library feed browses the tab's id, or the landing page (the first library tab) without a tab |
| `Auth.LibraryFeed` | ext/src/main/java/dev/brahmkshatriya/echo/extension/YoutubeExtension.kt:534-541 | `getLibraryFeed` succeeds iff there is a session and the load succeeds; it then returns the loaded items converted as non-singles, never the "VLSE" playlist |
| `Share.ShareUrl` | ext/src/main/java/dev/brahmkshatriya/echo/extension/YoutubeExtension.kt:633-640 | `onShare` gives the YouTube Music base, then the item kind's fixed path (`browse/`, `playlist?list=`, `channel/`, `watch?v=`), then the item id |
| `Share.ParseShareUrl` | ext/src/main/java/dev/brahmkshatriya/echo/extension/YoutubeExtension.kt:633-640 | a link read back as a kind and id is exactly the base, that kind's path and that id |
| `Share.PathsPrefixFree` | ext/src/main/java/dev/brahmkshatriya/echo/extension/YoutubeExtension.kt:634-639 | no share path is a prefix of another |
| `Share.ShareUrlRoundTrip` | ext/src/main/java/dev/brahmkshatriya/echo/extension/YoutubeExtension.kt:633-640 | every share link reads back as the kind and id it was built from |
| `Share.ShareUrlInjective` | ext/src/main/java/dev/brahmkshatriya/echo/extension/YoutubeExtension.kt:633-640 | two items share a link iff they have the same link kind and the same id |
| `Session.LoginState` | ext/src/main/java/dev/brahmkshatriya/echo/extension/YoutubeExtension.kt:478-480 | the installed state has an own channel id iff the user id is non-empty, and then it is that id |
| `Session.LoginThenUnauthorized` | ext/src/main/java/dev/brahmkshatriya/echo/extension/YoutubeExtension.kt:522-528 | after logging in, a 401 reports Unauthorized(user id), or LoginRequired when the user id was empty |
| `Session.ArtistShelf` | ext/src/main/java/dev/brahmkshatriya/echo/extension/YoutubeExtension.kt:351-370 | an artist shelf is titled by its English title or "Unknown" and subtitled by its English subtitle, if any; its items are converted with the singles flag set iff that title is "Singles"; it has more iff the layout has a view-more entry |
| `Session.SinglesAlbumTrackCount` | ext/src/main/java/dev/brahmkshatriya/echo/extension/YoutubeExtension.kt:352-353 | an album without an item count counts one track iff it sits in a "Singles" shelf, and has no count otherwise |
| `Session.ArtistShelves` | ext/src/main/java/dev/brahmkshatriya/echo/extension/YoutubeExtension.kt:351-370 | an artist page gives one shelf per layout, in order, or none when it has no layouts |
| `Session.FilterTabsExact` | ext/src/main/java/dev/brahmkshatriya/echo/extension/YoutubeExtension.kt:266-272 | each search tab comes from a category with a filter and is titled by the category's title or "???"; every filtered category gives its tab |
| `Session.FilterTabs` | ext/src/main/java/dev/brahmkshatriya/echo/extension/YoutubeExtension.kt:266-272 | there is at most one search tab per category |
| `Session.FilterTabsAppend` | ext/src/main/java/dev/brahmkshatriya/echo/extension/YoutubeExtension.kt:266-272 | the search tabs keep the order of the categories |
| `Session.ChipTabs` | ext/src/main/java/dev/brahmkshatriya/echo/extension/YoutubeExtension.kt:275-278 | the song feed's filter chips become tabs one for one, or none without chips |
| `Session.CategoryShelves` | ext/src/main/java/dev/brahmkshatriya/echo/extension/YoutubeExtension.kt:263-265 | the cached search shelves are the categories' rows, one for one and in order |
| `Session.SearchItems` | ext/src/main/java/dev/brahmkshatriya/echo/extension/YoutubeExtension.kt:241-247 | a fresh search answer is flattened into item shelves only, never the "VLSE" playlist |
| `Session.SearchItemsExact` | ext/src/main/java/dev/brahmkshatriya/echo/extension/YoutubeExtension.kt:241-247 | a fresh search answer holds exactly the converted items of its categories, each on a shelf of its own |
| `Session.SearchItemsAppend` | ext/src/main/java/dev/brahmkshatriya/echo/extension/YoutubeExtension.kt:241-247 | the flattened answer keeps the order of the categories |
| `Session.Session.constructor` | ext/src/main/java/dev/brahmkshatriya/echo/extension/YoutubeExtension.kt:234 | a new session has an empty track cache, no remembered artist, no cached search and no login |
| `Session.Session.LoadAlbum` | ext/src/main/java/dev/brahmkshatriya/echo/extension/YoutubeExtension.kt:336-342 | `loadAlbum` stores the track source under the returned id, so `loadTracks` of the returned album finds it; other entries and fields are unchanged |
| `Session.Session.LoadPlaylist` | ext/src/main/java/dev/brahmkshatriya/echo/extension/YoutubeExtension.kt:416-424 | `loadPlaylist` does the same, converting with the related-shelves id |
| `Session.Session.LoadTracks` | ext/src/main/java/dev/brahmkshatriya/echo/extension/YoutubeExtension.kt:344 | `loadTracks` yields a source iff the id is cached, and then the cached source |
| `Session.Session.LoadArtist` | ext/src/main/java/dev/brahmkshatriya/echo/extension/YoutubeExtension.kt:397-401 | `loadArtist` remembers the page and returns it converted; nothing else changes |
| `Session.Session.LoadUser` | ext/src/main/java/dev/brahmkshatriya/echo/extension/YoutubeExtension.kt:379-382 | `loadUser` remembers the page and returns it as a user |
| `Session.Session.ArtistMediaItems` | ext/src/main/java/dev/brahmkshatriya/echo/extension/YoutubeExtension.kt:346-371 | `getArtistMediaItems` uses the remembered page iff it belongs to the requested artist, and the fetched page otherwise |
| `Session.Session.SearchTabs` | ext/src/main/java/dev/brahmkshatriya/echo/extension/YoutubeExtension.kt:260-280 | with a query, `searchTabs` caches the answer's shelves under the query, so the next "All" or tab-less feed of that query is served from the cache, and returns "All" followed by the filter tabs; without a query it returns the chip tabs and leaves the cache alone |
| `Session.Session.SearchFeed` | ext/src/main/java/dev/brahmkshatriya/echo/extension/YoutubeExtension.kt:235-258 | `searchFeed` returns the cached shelves iff the cache holds the query and the tab is absent or "All", and otherwise the fresh answer item by item; without a query it returns the song feed rows for a tab, or nothing |
| `Session.Session.SetLoginUser` | ext/src/main/java/dev/brahmkshatriya/echo/extension/YoutubeExtension.kt:464-481 | logging out clears the state; a user without "cookie" or without "auth" fails, in that order, and leaves the state unchanged; otherwise the installed state carries both headers and the user id as own channel id |

## Left out

- Network and remote calls are inputs to the model. This covers the `YoutubeiApi` endpoints, ktor requests and the account switcher request.
- The coroutine fan-out of `loadTrack` is not modelled: its point is concurrency. `loadTrack`, `getStreamableMedia` and `loadRelated` are left out with it.
- SHA-1 hashing and the clock in `onLoginWebviewStop` are not modelled: they are a foreign crypto library and time.
- JSON encoding and decoding and settings storage are not modelled. Only the prefix stripping before decoding is.
- `Session.Session.SetLoginUser`: logging out also restores or fetches the visitor id from settings or the network; that step is not modelled.
- `PagedData` and `Page` internals and continuation tokens live in the host library. A paged result is modelled as the list of its first page.
- Each "more" page of a shelf or container is a deferred remote call, so only whether it exists is kept.
- `Session.ArtistShelf`: the "more" page exists when `view_more` yields browse parameters; the model keeps only whether the layout has one.
- `thumbnail_provider.getThumbnailUrl` is a library call. It is modelled as a fixed, possibly null URL per quality.
- The title heuristic of `searchSongForVideo` depends entirely on a remote search and is not modelled.
- `toInt()` is modelled for ASCII digits with an optional sign. Other Unicode decimal digits that Kotlin also accepts are not modelled.
- The local mutable `extras` maps of the converters are modelled as successive map updates.
- The layout-to-shelf conversion `toShelf(api, language, quality)`, the item-to-shelf `toShelf()` and the two-argument `toEchoMediaItem(single, quality)` are called by `YoutubeExtension` but are not defined in the sources modelled here. The model uses `ExtConvertors.ToMediaItemsContainer` and `ExtConvertors.ToEchoMediaItem`, whose `api` argument only feeds an unused channel id.
- `getString(language)` is modelled by a localised string's `english` and `display` texts. The extension's language is British English, so its own shelves use `english`.
- The edit endpoint's behaviour (`EditSemantics`) is a reference model of the remote service. It is what the translations rely on, not code of this repository.
- `Text.ToIntOrNull`: reads ASCII digits only. On the JVM `toInt()` is `Integer.parseInt`, which also accepts the decimal digits of other scripts; a group id written in such digits would parse there and fail here.
- `EditSemantics.MoveToLastIsDropped`: a forward move onto the last position is dropped, because `moveTrackInPlaylist` returns early when `getOrNull(toIndex + 1)` finds no set id. That the endpoint has no move-to-end action is an assumption of the reference semantics in `EditSemantics`, not something the code states. This is kept as the code behaves, and documented rather than corrected.
- `Session.Session.SearchFeed`: the code reads the cached search inside the deferred loader of `PagedData.Single`, so the cache is consulted when the feed is loaded. The model reads it when `SearchFeed` is called, so a search that replaces the cache between the two is not captured.
- Not modelled, because each is a single remote call with no logic beyond it:
  - radio;
  - lyrics;
  - related shelves;
  - quick search and search history;
  - home feed;
  - like and follow;
  - create, delete and rename playlist;
  - `getCurrentUser`;
  - playback reporting.
- Where an operation goes through `withUserAuth`, the guard itself is modelled by `Auth.WithUserAuth`.
