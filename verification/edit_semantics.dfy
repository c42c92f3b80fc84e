/**
 * A reference semantics for the edit endpoint, assumed by this model rather than taken from
 * the extension's code: a playlist is a sequence of slots, each with a stable set id; Add
 * appends a slot under a newly minted set id, Remove drops the slot with the given set id,
 * and Move takes a slot out and puts it back immediately before the anchor slot. The
 * reference has no "move to the end" action, since the extension never sends one.
 *
 * Against this reference the three translations of `PlaylistEdit` are proved to do what
 * their index-based requests ask for, and the one request the code does not serve, a
 * forward move onto the last position, is shown to be dropped by its early return.
 */
module EditSemantics {
  import opened Wrappers
  import opened Text
  import opened Echo
  import opened PlaylistEdit

  datatype Slot = Slot(setId: string, videoId: string)

  function SetIds(p: seq<Slot>): (ids: seq<string>)
    ensures |ids| == |p| && forall i :: 0 <= i < |p| ==> ids[i] == p[i].setId
  {
    seq(|p|, i requires 0 <= i < |p| => p[i].setId)
  }

  predicate Distinct(xs: seq<string>)
  {
    forall i, j :: 0 <= i < j < |xs| ==> xs[i] != xs[j]
  }

  /** The caller's track list is the playlist as the service holds it. */
  predicate Mirrors(tracks: seq<Track>, p: seq<Slot>)
  {
    |tracks| == |p|
    && forall i :: 0 <= i < |p| ==> tracks[i].id == p[i].videoId && SetIdOf(tracks[i]) == Some(p[i].setId)
  }

  // ---------------------------------------------------------------------------
  // The service's actions
  // ---------------------------------------------------------------------------

  /** The slots whose set id is not in `ids`, in order. */
  function FilterOut(p: seq<Slot>, ids: set<string>): (r: seq<Slot>)
    ensures |r| <= |p|
  {
    if p == [] then []
    else if p[0].setId in ids then FilterOut(p[1..], ids)
    else [p[0]] + FilterOut(p[1..], ids)
  }

  function Without(p: seq<Slot>, setId: string): seq<Slot>
  {
    FilterOut(p, {setId})
  }

  predicate HasSlot(p: seq<Slot>, setId: string)
  {
    exists i :: 0 <= i < |p| && p[i].setId == setId
  }

  /** The slot with the given set id, if there is one. */
  function SlotNamed(p: seq<Slot>, setId: string): (r: Option<Slot>)
    ensures r.Some? <==> HasSlot(p, setId)
    ensures r.Some? ==> r.value in p && r.value.setId == setId
  {
    if p == [] then None
    else if p[0].setId == setId then Some(p[0])
    else SlotNamed(p[1..], setId)
  }

  /** Puts `slot` immediately before the first slot named `anchor`. */
  function InsertBefore(p: seq<Slot>, slot: Slot, anchor: string): (r: seq<Slot>)
    requires HasSlot(p, anchor)
    ensures |r| == |p| + 1
  {
    if p[0].setId == anchor then [slot] + p
    else [p[0]] + InsertBefore(p[1..], slot, anchor)
  }

  /** One action. `newId` is the set id the service mints if the action is an Add. A Move
      whose slot or anchor is missing, or that names the same slot twice, changes nothing. */
  function ApplyAction(p: seq<Slot>, action: Action, newId: string): seq<Slot>
  {
    match action
    case Add(videoId) => p + [Slot(newId, videoId)]
    case Remove(_, setId) => Without(p, setId)
    case Move(setId, anchor) =>
      match SlotNamed(p, setId)
      case None => p
      case Some(mover) =>
        var rest := Without(p, setId);
        if HasSlot(rest, anchor) then InsertBefore(rest, mover, anchor) else p
  }

  /** One `editPlaylist` call: the actions in order; `minted[i]` is the id an Add at
      position `i` receives. */
  function ApplyCall(p: seq<Slot>, actions: seq<Action>, minted: seq<string>): seq<Slot>
    requires |minted| == |actions|
    decreases |actions|
  {
    if actions == [] then p
    else ApplyCall(ApplyAction(p, actions[0], minted[0]), actions[1..], minted[1..])
  }

  // ---------------------------------------------------------------------------
  // Sequence helpers
  // ---------------------------------------------------------------------------

  /** The list without position `i`. */
  function RemoveAt(p: seq<Slot>, i: nat): (r: seq<Slot>)
    requires i < |p|
    ensures |r| == |p| - 1
  {
    p[..i] + p[i + 1..]
  }

  /** The list with `slot` at position `i`. */
  function InsertAt(p: seq<Slot>, i: nat, slot: Slot): (r: seq<Slot>)
    requires i <= |p|
    ensures |r| == |p| + 1 && r[i] == slot
  {
    p[..i] + [slot] + p[i..]
  }

  lemma {:induction false} FilterOutAppend(a: seq<Slot>, b: seq<Slot>, ids: set<string>)
    ensures FilterOut(a + b, ids) == FilterOut(a, ids) + FilterOut(b, ids)
  {
    if a == [] {
      assert a + b == b;
    } else {
      var x, tail := a[0], a[1..];
      assert a == [x] + tail;
      assert a + b == [x] + (tail + b);
      FilterOutAppend(tail, b, ids);
      FilterOutCons(x, tail + b, ids);
      FilterOutCons(x, tail, ids);
    }
  }

  /** One unfolding of `FilterOut` on a list written as its head and tail. */
  lemma {:induction false} FilterOutCons(x: Slot, tail: seq<Slot>, ids: set<string>)
    ensures FilterOut([x] + tail, ids) == if x.setId in ids then FilterOut(tail, ids) else [x] + FilterOut(tail, ids)
  {
    assert ([x] + tail)[0] == x;
    assert ([x] + tail)[1..] == tail;
  }

  /** `FilterOut` keeps exactly the slots whose set id is not filtered out. */
  lemma {:induction false} FilterOutMembers(p: seq<Slot>, ids: set<string>, s: Slot)
    ensures s in FilterOut(p, ids) <==> s in p && s.setId !in ids
  {
    if p != [] {
      FilterOutMembers(p[1..], ids, s);
      assert p == [p[0]] + p[1..];
    }
  }

  lemma {:induction false} FilterOutNone(p: seq<Slot>, ids: set<string>)
    requires forall i :: 0 <= i < |p| ==> p[i].setId !in ids
    ensures FilterOut(p, ids) == p
  {
    if p != [] {
      FilterOutNone(p[1..], ids);
    }
  }

  lemma {:induction false} FilterOutTwice(p: seq<Slot>, a: set<string>, b: set<string>)
    ensures FilterOut(FilterOut(p, a), b) == FilterOut(p, a + b)
  {
    if p != [] {
      FilterOutTwice(p[1..], a, b);
    }
  }

  /** Taking out the one slot named `x.setId` from `A + [x] + B`. */
  lemma {:induction false} WithoutMiddle(a: seq<Slot>, x: Slot, b: seq<Slot>)
    requires x.setId !in SetIds(a) && x.setId !in SetIds(b)
    ensures Without(a + [x] + b, x.setId) == a + b
  {
    var ids := {x.setId};
    FilterOutAppend(a + [x], b, ids);
    FilterOutAppend(a, [x], ids);
    assert FilterOut([x], ids) == [] by {
      assert [x][1..] == [];
    }
    NotNamed(a, x.setId);
    NotNamed(b, x.setId);
    FilterOutNone(a, ids);
    FilterOutNone(b, ids);
    assert a + [] == a;
  }

  lemma {:induction false} NotNamed(a: seq<Slot>, setId: string)
    requires setId !in SetIds(a)
    ensures forall i :: 0 <= i < |a| ==> a[i].setId !in {setId}
  {
    forall i | 0 <= i < |a| ensures a[i].setId != setId {
      assert SetIds(a)[i] == a[i].setId;
    }
  }

  lemma {:induction false} InsertBeforeMiddle(a: seq<Slot>, y: Slot, b: seq<Slot>, slot: Slot)
    requires y.setId !in SetIds(a)
    ensures HasSlot(a + [y] + b, y.setId)
    ensures InsertBefore(a + [y] + b, slot, y.setId) == a + [slot] + [y] + b
  {
    var p := a + [y] + b;
    assert p[|a|] == y;
    if a == [] {
      assert p == [y] + b;
    } else {
      var tail := a[1..];
      assert a[0].setId != y.setId by { assert SetIds(a)[0] == a[0].setId; }
      assert y.setId !in SetIds(tail) by { assert SetIds(tail) == SetIds(a)[1..]; }
      assert p[0] == a[0] && p[1..] == tail + [y] + b;
      InsertBeforeMiddle(tail, y, b, slot);
      assert a + [slot] + [y] + b == [a[0]] + (tail + [slot] + [y] + b);
    }
  }

  lemma {:induction false} SlotNamedMiddle(a: seq<Slot>, x: Slot, b: seq<Slot>)
    requires x.setId !in SetIds(a)
    ensures SlotNamed(a + [x] + b, x.setId) == Some(x)
  {
    var p := a + [x] + b;
    if a != [] {
      assert a[0].setId != x.setId by { assert SetIds(a)[0] == a[0].setId; }
      assert SetIds(a[1..]) == SetIds(a)[1..];
      SlotNamedMiddle(a[1..], x, b);
      assert p[1..] == a[1..] + [x] + b;
    }
  }

  /** With distinct set ids, the slot at position `k` shares its name with no slot before or
      after it. */
  lemma {:induction false} DistinctAt(p: seq<Slot>, k: nat)
    requires Distinct(SetIds(p)) && k < |p|
    ensures p[k].setId !in SetIds(p[..k]) && p[k].setId !in SetIds(p[k + 1..])
  {
    var head, tail := p[..k], p[k + 1..];
    forall i | 0 <= i < |head| ensures SetIds(head)[i] != p[k].setId {
      assert SetIds(head)[i] == SetIds(p)[i];
    }
    forall i | 0 <= i < |tail| ensures SetIds(tail)[i] != p[k].setId {
      assert SetIds(tail)[i] == SetIds(p)[k + 1 + i];
    }
  }

  /** With distinct set ids, two positions with the same name are one position. */
  lemma {:induction false} SameName(p: seq<Slot>, i: nat, j: nat)
    requires Distinct(SetIds(p)) && i < |p| && j < |p| && p[i].setId == p[j].setId
    ensures i == j
  {
    assert SetIds(p)[i] == SetIds(p)[j];
  }

  /** The service's Move on a list split around the mover `x` and, once `x` is out, around
      the anchor `y`. */
  lemma {:induction false} MoveApplied(a: seq<Slot>, x: Slot, b: seq<Slot>, a': seq<Slot>, y: Slot, b': seq<Slot>, newId: string)
    requires x.setId !in SetIds(a) && x.setId !in SetIds(b)
    requires a + b == a' + [y] + b' && y.setId !in SetIds(a')
    ensures ApplyAction(a + [x] + b, Move(x.setId, y.setId), newId) == a' + [x] + [y] + b'
  {
    SlotNamedMiddle(a, x, b);
    WithoutMiddle(a, x, b);
    InsertBeforeMiddle(a', y, b', x);
  }

  // ---------------------------------------------------------------------------
  // Remove
  // ---------------------------------------------------------------------------

  /** The set ids at the requested positions. */
  function IdsAt(p: seq<Slot>, indexes: seq<int>): set<string>
    requires forall j :: 0 <= j < |indexes| ==> 0 <= indexes[j] < |p|
  {
    set j | 0 <= j < |indexes| :: p[indexes[j]].setId
  }

  lemma {:induction false} ApplyRemoves(p: seq<Slot>, q: seq<Slot>, indexes: seq<int>, actions: seq<Action>, minted: seq<string>, gone: set<string>)
    requires forall j :: 0 <= j < |indexes| ==> 0 <= indexes[j] < |q|
    requires |actions| == |indexes| == |minted|
    requires forall j :: 0 <= j < |indexes| ==> actions[j] == Remove(q[indexes[j]].videoId, q[indexes[j]].setId)
    ensures ApplyCall(FilterOut(p, gone), actions, minted) == FilterOut(p, gone + IdsAt(q, indexes))
  {
    if actions == [] {
      assert IdsAt(q, indexes) == {};
      assert gone + {} == gone;
    } else {
      var id := q[indexes[0]].setId;
      FilterOutTwice(p, gone, {id});
      ApplyRemoves(p, q, indexes[1..], actions[1..], minted[1..], gone + {id});
      assert gone + {id} + IdsAt(q, indexes[1..]) == gone + IdsAt(q, indexes) by {
        assert IdsAt(q, indexes) == {id} + IdsAt(q, indexes[1..]) by {
          forall s | s in IdsAt(q, indexes) ensures s in {id} + IdsAt(q, indexes[1..]) {
            var j :| 0 <= j < |indexes| && s == q[indexes[j]].setId;
            if j > 0 { assert indexes[1..][j - 1] == indexes[j]; }
          }
          forall s | s in IdsAt(q, indexes[1..]) ensures s in IdsAt(q, indexes) {
            var j :| 0 <= j < |indexes[1..]| && s == q[indexes[1..][j]].setId;
            assert indexes[1..][j] == indexes[j + 1];
          }
        }
      }
    }
  }

  /** `removeTracksFromPlaylist` removes exactly the slots at the requested indexes, all
      resolved in the list as it was before the first removal: what remains is every other
      slot, in its old order. */
  lemma {:induction false} RemoveTracksCorrect(tracks: seq<Track>, p: seq<Slot>, indexes: seq<int>, minted: seq<string>)
    requires Mirrors(tracks, p)
    requires forall j :: 0 <= j < |indexes| ==> 0 <= indexes[j] < |p|
    requires |minted| == |indexes|
    ensures RemoveTracks(tracks, indexes).error.None?
    ensures ApplyCall(p, RemoveTracks(tracks, indexes).calls[0], minted) == FilterOut(p, IdsAt(p, indexes))
  {
    var actions := RemoveActions(tracks, indexes).value;
    FilterOutNone(p, {});
    ApplyRemoves(p, p, indexes, actions, minted, {});
    assert {} + IdsAt(p, indexes) == IdsAt(p, indexes);
  }

  /** With distinct set ids, filtering by the ids at the requested positions keeps exactly
      the slots at the other positions. */
  lemma {:induction false} RemovedPositions(p: seq<Slot>, indexes: seq<int>, i: nat)
    requires Distinct(SetIds(p))
    requires forall j :: 0 <= j < |indexes| ==> 0 <= indexes[j] < |p|
    requires i < |p|
    ensures p[i] in FilterOut(p, IdsAt(p, indexes)) <==> i !in indexes
  {
    FilterOutMembers(p, IdsAt(p, indexes), p[i]);
    if i in indexes {
      var j :| 0 <= j < |indexes| && indexes[j] == i;
      assert p[i].setId == p[indexes[j]].setId;
    }
    if p[i].setId in IdsAt(p, indexes) {
      var j :| 0 <= j < |indexes| && p[i].setId == p[indexes[j]].setId;
      SameName(p, i, indexes[j]);
    }
  }

  // ---------------------------------------------------------------------------
  // Add
  // ---------------------------------------------------------------------------

  /** The slots the service creates for new tracks. */
  function NewSlots(newTracks: seq<Track>, minted: seq<string>): (r: seq<Slot>)
    requires |minted| == |newTracks|
    ensures |r| == |newTracks| && forall i :: 0 <= i < |r| ==> r[i] == Slot(minted[i], newTracks[i].id)
  {
    seq(|newTracks|, i requires 0 <= i < |newTracks| => Slot(minted[i], newTracks[i].id))
  }

  lemma {:induction false} ApplyAdds(p: seq<Slot>, newTracks: seq<Track>, minted: seq<string>)
    requires |minted| == |newTracks|
    ensures ApplyCall(p, AddActions(newTracks), minted) == p + NewSlots(newTracks, minted)
    decreases |newTracks|
  {
    if newTracks != [] {
      var first := Slot(minted[0], newTracks[0].id);
      assert AddActions(newTracks)[1..] == AddActions(newTracks[1..]);
      ApplyAdds(p + [first], newTracks[1..], minted[1..]);
      assert NewSlots(newTracks, minted) == [first] + NewSlots(newTracks[1..], minted[1..]);
    }
  }

  /** One Move of the second `addTracksToPlaylist` call: the next pending slot `x` goes in
      front of the anchor `y`, and the names stay distinct. */
  lemma {:induction false} AnchoredStep(front: seq<Slot>, y: Slot, back: seq<Slot>, x: Slot, tail: seq<Slot>, newId: string)
    requires Distinct(SetIds(front + [y] + back + [x] + tail))
    ensures ApplyAction(front + [y] + back + [x] + tail, Move(x.setId, y.setId), newId)
            == front + [x] + [y] + back + tail
    ensures Distinct(SetIds(front + [x] + [y] + back + tail))
  {
    var a := front + [y] + back;
    var p := a + [x] + tail;
    assert x.setId !in SetIds(a) && x.setId !in SetIds(tail) by {
      assert p[..|a|] == a && p[|a| + 1..] == tail;
      DistinctAt(p, |a|);
    }
    assert y.setId !in SetIds(front) by {
      assert p[..|front|] == front && p[|front|] == y;
      DistinctAt(p, |front|);
    }
    var q := front + [x] + [y] + back + tail;
    assert a + tail == front + [y] + (back + tail);
    MoveApplied(a, x, tail, front, y, back + tail, newId);
    assert front + [x] + [y] + (back + tail) == q;
    assert multiset(q) == multiset(p) by {
      calc {
        multiset(q);
        multiset(front) + multiset([x]) + multiset([y]) + multiset(back) + multiset(tail);
        multiset(front) + multiset([y]) + multiset(back) + multiset([x]) + multiset(tail);
        multiset(p);
      }
    }
    DistinctPermutation(p, q);
  }

  /** The second `addTracksToPlaylist` call moves the pending slots, one by one and in order,
      in front of the anchor `y`. */
  lemma {:induction false} ApplyAnchoredMoves(front: seq<Slot>, y: Slot, back: seq<Slot>, pending: seq<Slot>, newIds: seq<string>)
    requires Distinct(SetIds(front + [y] + back + pending))
    requires |newIds| == |pending|
    ensures ApplyCall(front + [y] + back + pending, MoveActions(SetIds(pending), y.setId), newIds)
         == front + pending + [y] + back
    decreases |pending|
  {
    if pending == [] {
      assert front + [y] + back + pending == front + [y] + back;
      assert front + pending == front;
    } else {
      var x, tail := pending[0], pending[1..];
      var p := front + [y] + back + pending;
      assert p == front + [y] + back + [x] + tail;
      AnchoredStep(front, y, back, x, tail, newIds[0]);
      var moved := front + [x] + [y] + back + tail;
      var actions := MoveActions(SetIds(pending), y.setId);
      assert actions[0] == Move(x.setId, y.setId);
      assert actions[1..] == MoveActions(SetIds(tail), y.setId) by {
        assert SetIds(pending)[1..] == SetIds(tail);
      }
      calc {
        ApplyCall(p, actions, newIds);
        ApplyCall(ApplyAction(p, actions[0], newIds[0]), actions[1..], newIds[1..]);
        ApplyCall(moved, MoveActions(SetIds(tail), y.setId), newIds[1..]);
        { ApplyAnchoredMoves(front + [x], y, back, tail, newIds[1..]); }
        front + [x] + tail + [y] + back;
        { assert front + [x] + tail == front + pending; }
        front + pending + [y] + back;
      }
    }
  }

  /** Rearranging slots keeps their set ids distinct. */
  lemma {:induction false} DistinctPermutation(p: seq<Slot>, q: seq<Slot>)
    requires Distinct(SetIds(p)) && multiset(p) == multiset(q)
    ensures Distinct(SetIds(q))
  {
    forall i, j | 0 <= i < j < |q| ensures SetIds(q)[i] != SetIds(q)[j] {
      assert q[i] in multiset(p) && q[j] in multiset(p);
      var pi :| 0 <= pi < |p| && p[pi] == q[i];
      var pj :| 0 <= pj < |p| && p[pj] == q[j];
      if pi == pj {
        // Then `q` holds the slot twice, `p` only once.
        assert multiset(q)[q[i]] >= 2 by {
          assert q == q[..i] + [q[i]] + q[i + 1..j] + [q[j]] + q[j + 1..];
        }
        MultiplicityOne(p, pi);
        assert false;
      }
      assert SetIds(p)[pi] != SetIds(p)[pj];
    }
  }

  lemma {:induction false} MultiplicityOne(p: seq<Slot>, i: nat)
    requires Distinct(SetIds(p)) && i < |p|
    ensures multiset(p)[p[i]] == 1
  {
    assert p == p[..i] + [p[i]] + p[i + 1..];
    assert p[i] !in p[..i] by {
      forall k | 0 <= k < i ensures p[k] != p[i] { assert SetIds(p)[k] != SetIds(p)[i]; }
    }
    assert p[i] !in p[i + 1..] by {
      forall k | i < k < |p| ensures p[k] != p[i] { assert SetIds(p)[i] != SetIds(p)[k]; }
    }
  }

  /** `addTracksToPlaylist` inserts the new tracks, in their given order, as one block in
      front of the track that was at `index`; when `index` names no slot with a set id they
      stay at the end, where the service appends them. */
  lemma {:induction false} AddTracksCorrect(tracks: seq<Track>, p: seq<Slot>, index: int, newTracks: seq<Track>, minted: seq<string>)
    requires Mirrors(tracks, p)
    requires |minted| == |newTracks| && Distinct(SetIds(p) + minted)
    ensures var run := AddTracks(tracks, index, newTracks, Some(minted));
            var added := ApplyCall(p, run.calls[0], minted);
            run.error.None?
            && added == p + NewSlots(newTracks, minted)
            && (!(0 <= index < |p|) ==> |run.calls| == 1)
            && (0 <= index < |p| ==>
                  |run.calls| == 2
                  && ApplyCall(added, run.calls[1], minted) == p[..index] + NewSlots(newTracks, minted) + p[index..])
  {
    var run := AddTracks(tracks, index, newTracks, Some(minted));
    var added := NewSlots(newTracks, minted);
    ApplyAdds(p, newTracks, minted);
    assert SetIds(p + added) == SetIds(p) + minted;
    if 0 <= index < |p| {
      assert SetIdAt(tracks, index) == Some(p[index].setId);
      assert SetIds(added) == minted;
      MovesBeforeIndex(p, index, added, minted);
    }
  }

  /** The second call of an insertion: moving the appended slots, one by one, in front of
      the slot at `index` puts them there as a block. */
  lemma {:induction false} MovesBeforeIndex(p: seq<Slot>, index: int, added: seq<Slot>, minted: seq<string>)
    requires 0 <= index < |p| && |minted| == |added|
    requires Distinct(SetIds(p + added))
    ensures ApplyCall(p + added, MoveActions(SetIds(added), p[index].setId), minted)
         == p[..index] + added + p[index..]
  {
    var front, y, back := p[..index], p[index], p[index + 1..];
    assert p[index..] == [y] + back;
    assert p == front + p[index..];
    assert p + added == front + [y] + back + added;
    ApplyAnchoredMoves(front, y, back, added, minted);
    assert front + added + [y] + back == front + added + p[index..];
  }

  // ---------------------------------------------------------------------------
  // Move
  // ---------------------------------------------------------------------------

  /** `moveTrackInPlaylist` puts the track from `fromIndex` at `toIndex` and leaves the
      others in order, whenever the list has a slot at the anchor index. */
  lemma {:induction false} MoveTrackCorrect(tracks: seq<Track>, p: seq<Slot>, fromIndex: nat, toIndex: nat, newId: string)
    requires Mirrors(tracks, p) && Distinct(SetIds(p)) && |p| <= IntMax
    requires fromIndex < |p| && toIndex < |p| && AnchorIndex(fromIndex, toIndex) < |p|
    ensures var run := MoveTrack(tracks, fromIndex, toIndex);
            run.error.None? && |run.calls| == 1 && |run.calls[0]| == 1
            && ApplyCall(p, run.calls[0], [newId]) == InsertAt(RemoveAt(p, fromIndex), toIndex, p[fromIndex])
  {
    var anchorIndex := AnchorIndex(fromIndex, toIndex);
    var move := Move(p[fromIndex].setId, p[anchorIndex].setId);
    assert Resolvable(tracks, fromIndex) && SetIdOf(tracks[fromIndex]) == Some(p[fromIndex].setId);
    assert SetIdAt(tracks, anchorIndex) == Some(p[anchorIndex].setId);
    var run := MoveTrack(tracks, fromIndex, toIndex);
    assert run == EditRun([[move]], None);
    calc {
      ApplyCall(p, [move], [newId]);
      ApplyCall(ApplyAction(p, move, newId), [], []);
      ApplyAction(p, move, newId);
      { MoveGeometry(p, fromIndex, toIndex, newId); }
      InsertAt(RemoveAt(p, fromIndex), toIndex, p[fromIndex]);
    }
  }

  /** The service's Move, fed the names at `fromIndex` and at the anchor index, puts the slot
      from `fromIndex` at `toIndex`. */
  lemma {:induction false} MoveGeometry(p: seq<Slot>, fromIndex: nat, toIndex: nat, newId: string)
    requires Distinct(SetIds(p))
    requires fromIndex < |p| && toIndex < |p| && AnchorIndex(fromIndex, toIndex) < |p|
    ensures ApplyAction(p, Move(p[fromIndex].setId, p[AnchorIndex(fromIndex, toIndex)].setId), newId)
            == InsertAt(RemoveAt(p, fromIndex), toIndex, p[fromIndex])
  {
    var x := p[fromIndex];
    var y := p[AnchorIndex(fromIndex, toIndex)];
    var a, b := p[..fromIndex], p[fromIndex + 1..];
    assert p == a + [x] + b;
    DistinctAt(p, fromIndex);
    var rest := RemoveAt(p, fromIndex);
    AnchorAfterRemoval(p, fromIndex, toIndex);
    RemoveAtDistinct(p, fromIndex);
    DistinctAt(rest, toIndex);
    var a', b' := rest[..toIndex], rest[toIndex + 1..];
    SplitAround(rest, toIndex);
    assert a + b == a' + [y] + b';
    MoveApplied(a, x, b, a', y, b', newId);
    InsertAtSplit(rest, toIndex, x);
  }

  /** Once the mover is out, the anchor slot sits at `toIndex`. */
  lemma {:induction false} AnchorAfterRemoval(p: seq<Slot>, fromIndex: nat, toIndex: nat)
    requires fromIndex < |p| && toIndex < |p| && AnchorIndex(fromIndex, toIndex) < |p|
    ensures toIndex < |RemoveAt(p, fromIndex)|
    ensures RemoveAt(p, fromIndex)[toIndex] == p[AnchorIndex(fromIndex, toIndex)]
  {
    var a, b := p[..fromIndex], p[fromIndex + 1..];
    var rest := RemoveAt(p, fromIndex);
    assert rest == a + b;
    if fromIndex > toIndex {
      assert rest[toIndex] == a[toIndex];
    } else {
      assert rest[toIndex] == b[toIndex - fromIndex];
    }
  }

  lemma {:induction false} SplitAround(q: seq<Slot>, k: nat)
    requires k < |q|
    ensures q == q[..k] + [q[k]] + q[k + 1..]
  {
  }

  lemma {:induction false} InsertAtSplit(q: seq<Slot>, k: nat, x: Slot)
    requires k < |q|
    ensures InsertAt(q, k, x) == q[..k] + [x] + [q[k]] + q[k + 1..]
  {
    assert q[k..] == [q[k]] + q[k + 1..];
  }

  /** Taking one slot out keeps the names distinct. */
  lemma {:induction false} RemoveAtDistinct(p: seq<Slot>, k: nat)
    requires Distinct(SetIds(p)) && k < |p|
    ensures Distinct(SetIds(RemoveAt(p, k)))
  {
    var rest := RemoveAt(p, k);
    forall i, j | 0 <= i < j < |rest| ensures SetIds(rest)[i] != SetIds(rest)[j] {
      var pi := if i < k then i else i + 1;
      var pj := if j < k then j else j + 1;
      assert rest[i] == p[pi] && rest[j] == p[pj];
      assert SetIds(p)[pi] != SetIds(p)[pj];
    }
  }

  /** `moveTrackInPlaylist` returns early when the slot after the target has no set id, so a
      forward move onto the last position finds no anchor and is silently dropped, although
      the request asked for a different order. */
  lemma {:induction false} MoveToLastIsDropped(tracks: seq<Track>, p: seq<Slot>, fromIndex: nat)
    requires Mirrors(tracks, p) && Distinct(SetIds(p)) && |p| <= IntMax
    requires fromIndex < |p| - 1
    ensures MoveTrack(tracks, fromIndex, |p| - 1) == EditRun([], None)
    ensures InsertAt(RemoveAt(p, fromIndex), |p| - 1, p[fromIndex]) != p
  {
    var q := InsertAt(RemoveAt(p, fromIndex), |p| - 1, p[fromIndex]);
    assert q[|p| - 1] == p[fromIndex];
    assert SetIds(p)[fromIndex] != SetIds(p)[|p| - 1];
  }
}
