/**
 * The playlist mutation engine of `YoutubeExtension` (`removeTracksFromPlaylist`,
 * `addTracksToPlaylist`, `moveTrackInPlaylist`): index-based requests over the caller's
 * track list become the edit endpoint's anchor-based actions, where every playlist slot is
 * named by the `setId` extra of its track.
 *
 * Each request is modelled by the `EditRun` it produces: the action lists handed to the
 * edit endpoint, one list per `editPlaylist` call and in call order, and the exception, if
 * any, that ended the request (an index outside the list, a `!!` on a missing set id, or a
 * `!!` on missing edit results).
 */
module PlaylistEdit {
  import opened Wrappers
  import opened Text
  import opened Echo

  const SetIdKey := "setId"

  /** `EchoEditPlaylistEndpoint.Action`. */
  datatype Action =
    | Remove(videoId: string, setId: string)
    | Add(videoId: string)
    | Move(setId: string, beforeSetId: string)

  datatype EditError =
    | IndexOutOfBounds(index: int)
    | MissingSetId(index: int)
    | MissingEditResults

  datatype EditRun = EditRun(calls: seq<seq<Action>>, error: Option<EditError>)

  /** `track.extras["setId"]`. */
  function SetIdOf(track: Track): Option<string>
  {
    Extra(track.extras, SetIdKey)
  }

  /** `tracks.getOrNull(index)?.extras?.get("setId")`: null outside the list as well as
      for a track without a set id. */
  function SetIdAt(tracks: seq<Track>, index: int): (r: Option<string>)
    ensures r.Some? <==> 0 <= index < |tracks| && SetIdOf(tracks[index]).Some?
    ensures r.Some? ==> r == SetIdOf(tracks[index])
  {
    if 0 <= index < |tracks| then SetIdOf(tracks[index]) else None
  }

  // ---------------------------------------------------------------------------
  // Remove
  // ---------------------------------------------------------------------------

  /** `tracks[i].extras["setId"]!!` succeeds. */
  predicate Resolvable(tracks: seq<Track>, i: int)
  {
    0 <= i < |tracks| && SetIdOf(tracks[i]).Some?
  }

  /** The exception `tracks[i].extras["setId"]!!` throws. */
  function ResolveError(tracks: seq<Track>, i: int): EditError
  {
    if 0 <= i < |tracks| then MissingSetId(i) else IndexOutOfBounds(i)
  }

  /** `indexes.map { Remove(tracks[it].id, tracks[it].extras["setId"]!!) }`: one Remove per
      index, in index-list order, each resolved against the list as given; the first index
      that cannot be resolved throws. */
  function RemoveActions(tracks: seq<Track>, indexes: seq<int>): (r: Result<seq<Action>, EditError>)
    ensures r.Success? <==> forall j :: 0 <= j < |indexes| ==> Resolvable(tracks, indexes[j])
    ensures r.Success? ==> |r.value| == |indexes|
    ensures r.Success? ==> forall j :: 0 <= j < |indexes| ==>
              r.value[j] == Remove(tracks[indexes[j]].id, SetIdOf(tracks[indexes[j]]).value)
    ensures r.Failure? ==>
              exists j :: 0 <= j < |indexes| && !Resolvable(tracks, indexes[j])
                          && (forall k :: 0 <= k < j ==> Resolvable(tracks, indexes[k]))
                          && r.error == ResolveError(tracks, indexes[j])
  {
    if indexes == [] then Success([])
    else
      var i := indexes[0];
      if !Resolvable(tracks, i) then Failure(ResolveError(tracks, i))
      else
        match RemoveActions(tracks, indexes[1..])
        case Failure(e) => Failure(e)
        case Success(rest) => Success([Remove(tracks[i].id, SetIdOf(tracks[i]).value)] + rest)
  }

  /** `removeTracksFromPlaylist`: one edit call with all the removals, or none at all when an
      index fails to resolve. */
  function RemoveTracks(tracks: seq<Track>, indexes: seq<int>): (r: EditRun)
    ensures r.error.None? <==> RemoveActions(tracks, indexes).Success?
    ensures r.error.None? ==> r.calls == [RemoveActions(tracks, indexes).value]
    ensures r.error.Some? ==> r.calls == []
  {
    match RemoveActions(tracks, indexes)
    case Failure(e) => EditRun([], Some(e))
    case Success(actions) => EditRun([actions], None)
  }

  // ---------------------------------------------------------------------------
  // Add
  // ---------------------------------------------------------------------------

  /** `new.map { Add(it.id) }`. */
  function AddActions(newTracks: seq<Track>): (r: seq<Action>)
    ensures |r| == |newTracks| && forall i :: 0 <= i < |r| ==> r[i] == Add(newTracks[i].id)
  {
    seq(|newTracks|, i requires 0 <= i < |newTracks| => Add(newTracks[i].id))
  }

  /** `setIds.map { Move(it, addBeforeTrack) }`. */
  function MoveActions(setIds: seq<string>, anchor: string): (r: seq<Action>)
    ensures |r| == |setIds| && forall i :: 0 <= i < |r| ==> r[i] == Move(setIds[i], anchor)
  {
    seq(|setIds|, i requires 0 <= i < |setIds| => Move(setIds[i], anchor))
  }

  /** `addTracksToPlaylist`. The first call appends the new tracks; `addedSetIds` is the
      endpoint's answer to it (the set ids of the added items, or null). When the pre-insertion
      track at `index` has a set id, a second call moves every added item before it. */
  function AddTracks(tracks: seq<Track>, index: int, newTracks: seq<Track>, addedSetIds: Option<seq<string>>): (r: EditRun)
    ensures |r.calls| >= 1 && r.calls[0] == AddActions(newTracks)
    ensures r.error.Some? <==> addedSetIds.None?
    ensures addedSetIds.None? ==> r.error == Some(MissingEditResults) && |r.calls| == 1
    ensures addedSetIds.Some? && SetIdAt(tracks, index).None? ==> |r.calls| == 1
    ensures addedSetIds.Some? && SetIdAt(tracks, index).Some? ==>
              r.calls == [AddActions(newTracks), MoveActions(addedSetIds.value, SetIdAt(tracks, index).value)]
  {
    var adds := AddActions(newTracks);
    match addedSetIds
    case None => EditRun([adds], Some(MissingEditResults))
    case Some(setIds) =>
      match SetIdAt(tracks, index)
      case None => EditRun([adds], None)
      case Some(anchor) => EditRun([adds, MoveActions(setIds, anchor)], None)
  }

  // ---------------------------------------------------------------------------
  // Move
  // ---------------------------------------------------------------------------

  /** The slot the mover must end up in front of: `to` when moving backward, `to + 1`
      otherwise, both read in the pre-move list. */
  function AnchorIndex(fromIndex: int, toIndex: int): int
  {
    if fromIndex > toIndex then toIndex else toIndex + 1
  }

  /** `moveTrackInPlaylist`, with the 32-bit `Int` arithmetic of `fromIndex - toIndex` and
      `toIndex + before` as written. Since a list holds at most `Int.MAX_VALUE` elements,
      the wrap-around never changes the outcome: the anchor is the one `AnchorIndex` names. */
  function MoveTrack(tracks: seq<Track>, fromIndex: int, toIndex: int): (r: EditRun)
    requires IsInt32(fromIndex) && IsInt32(toIndex) && |tracks| <= IntMax
    ensures !Resolvable(tracks, fromIndex) ==> r == EditRun([], Some(ResolveError(tracks, fromIndex)))
    ensures Resolvable(tracks, fromIndex) && SetIdAt(tracks, AnchorIndex(fromIndex, toIndex)).None? ==>
              r == EditRun([], None)
    ensures Resolvable(tracks, fromIndex) && SetIdAt(tracks, AnchorIndex(fromIndex, toIndex)).Some? ==>
              r == EditRun([[Move(SetIdOf(tracks[fromIndex]).value, SetIdAt(tracks, AnchorIndex(fromIndex, toIndex)).value)]], None)
  {
    if !Resolvable(tracks, fromIndex) then EditRun([], Some(ResolveError(tracks, fromIndex)))
    else
      var setId := SetIdOf(tracks[fromIndex]).value;
      var before := if Wrap32(fromIndex - toIndex) > 0 then 0 else 1;
      var anchorIndex := Wrap32(toIndex + before);
      assert SetIdAt(tracks, anchorIndex) == SetIdAt(tracks, AnchorIndex(fromIndex, toIndex)) by {
        WrapHarmless(|tracks|, fromIndex, toIndex);
      }
      match SetIdAt(tracks, anchorIndex)
      case None => EditRun([], None)
      case Some(anchor) => EditRun([[Move(setId, anchor)]], None)
  }

  /** Where the 32-bit anchor index differs from the mathematical one, both lie outside the
      list. */
  lemma {:induction false} WrapHarmless(size: int, fromIndex: int, toIndex: int)
    requires 0 <= fromIndex < size <= IntMax && IsInt32(toIndex)
    ensures var before := if Wrap32(fromIndex - toIndex) > 0 then 0 else 1;
            var wrapped := Wrap32(toIndex + before);
            wrapped == AnchorIndex(fromIndex, toIndex)
            || ((wrapped < 0 || wrapped >= size) && (AnchorIndex(fromIndex, toIndex) < 0 || AnchorIndex(fromIndex, toIndex) >= size))
  {
    if fromIndex - toIndex > IntMax {
      // Only a very negative `toIndex` overflows the difference; `toIndex + 1` is then
      // still negative.
      assert Wrap32(fromIndex - toIndex) == fromIndex - toIndex - 0x1_0000_0000;
    } else if toIndex == IntMax {
      assert Wrap32(toIndex + 1) == IntMin;
    }
  }
}
