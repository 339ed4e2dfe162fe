/**
 Lobby devices onto player slots: which player each lobby device plays, and where its input
 frame lands.
 */
module LobbyInput {
  import opened Counting
  import opened InputFrames
  import opened Sorting

  datatype PlayerSlot = PlayerSlot(id: nat, local: bool, connected: bool, primary: bool)

  // The first slot with the id decides.
  predicate IsPrimary(slots: seq<PlayerSlot>, id: nat) {
    slots != [] && if slots[0].id == id then slots[0].primary else IsPrimary(slots[1..], id)
  }

  // Primary players first, then by id.
  predicate Before(slots: seq<PlayerSlot>, a: nat, b: nat) {
    if IsPrimary(slots, a) != IsPrimary(slots, b) then IsPrimary(slots, a) else a < b
  }

  function LocalIds(slots: seq<PlayerSlot>): seq<nat> {
    if slots == [] then []
    else
      var rest, last := LocalIds(slots[..|slots| - 1]), slots[|slots| - 1];
      if last.connected && last.local then rest + [last.id] else rest
  }

  function PrimaryFirst(slots: seq<PlayerSlot>): Relation<nat> { (a: nat, b: nat) => Before(slots, a, b) }

  function SortedIds(slots: seq<PlayerSlot>, ids: seq<nat>): seq<nat> { Sorted(PrimaryFirst(slots), ids) }

  lemma SortedIdsIs(slots: seq<PlayerSlot>, ids: seq<nat>)
    ensures InOrder(PrimaryFirst(slots), SortedIds(slots, ids)) && multiset(SortedIds(slots, ids)) == multiset(ids)
    ensures (forall x :: x in SortedIds(slots, ids) <==> x in ids) &&
            (NoRepeats(ids) ==> NoRepeats(SortedIds(slots, ids)))
  {
    hide IsPrimary, Sorted;
    SortSorts(PrimaryFirst(slots), ids);
    SortedMembers(PrimaryFirst(slots), ids);
  }

  ghost predicate HasUpTo(ids: seq<nat>, f: nat) {
    forall x :: 1 <= x < f ==> x in ids
  }

  // A list with 1 to f - 1 in it has at least f - 1 members.
  lemma Pigeonhole(ids: seq<nat>, f: nat)
    requires f >= 1 && HasUpTo(ids, f)
    ensures f - 1 <= |ids|
  {
    var low := IdsBelow(f) - {0};
    assert IdsBelow(f) == low + {0};
    assert low <= SetOf(ids);
    SubsetSize(low, SetOf(ids));
  }

  // The list filled up with the smallest positive ids it lacks.
  function Filled(ids: seq<nat>, f: nat, count: nat): seq<nat>
    requires f >= 1 && HasUpTo(ids, f)
    decreases count + 1 - f
  {
    if |ids| >= count then ids
    else
      Pigeonhole(ids, f);
      Filled(if f in ids then ids else ids + [f], f + 1, count)
  }

  lemma FilledStep(ids: seq<nat>, f: nat, count: nat)
    requires f >= 1 && HasUpTo(ids, f)
    ensures f - 1 <= |ids| && HasUpTo(if f in ids then ids else ids + [f], f + 1)
    ensures Filled(ids, f, count) ==
            if |ids| >= count then ids else Filled(if f in ids then ids else ids + [f], f + 1, count)
  {
    Pigeonhole(ids, f);
  }

  /** Filling keeps the list, reaches the count and not more, and repeats nothing. */
  lemma {:induction false} FilledIs(ids: seq<nat>, f: nat, count: nat)
    requires f >= 1 && HasUpTo(ids, f)
    ensures var r := Filled(ids, f, count);
            && ids <= r && |r| == (if |ids| >= count then |ids| else count)
            && (NoRepeats(ids) ==> NoRepeats(r))
    decreases count + 1 - f
  {
    if |ids| < count {
      Pigeonhole(ids, f);
      FilledIs(if f in ids then ids else ids + [f], f + 1, count);
    }
  }

  /** Each id it adds is the smallest positive one missing so far, and at most the count. */
  lemma {:induction false} FillsSmallest(ids: seq<nat>, f: nat, count: nat, k: nat)
    requires f >= 1 && HasUpTo(ids, f) && |ids| <= k < |Filled(ids, f, count)|
    ensures var r := Filled(ids, f, count); f <= r[k] <= count && HasUpTo(r[..k], r[k]) && r[k] !in r[..k]
    decreases count + 1 - f
  {
    Pigeonhole(ids, f);
    var next := if f in ids then ids else ids + [f];
    FilledIs(next, f + 1, count);
    if k == |ids| && f !in ids {
      assert Filled(ids, f, count)[..k] == next[..k] == ids;
    } else {
      FillsSmallest(next, f + 1, count, k);
    }
  }

  function PlayerIds(slots: seq<PlayerSlot>, count: nat): seq<nat> {
    Filled(SortedIds(slots, LocalIds(slots)), 1, count)
  }

  // A slot per id.
  ghost predicate DistinctSlots(slots: seq<PlayerSlot>) {
    forall i, j :: 0 <= i < j < |slots| ==> slots[i].id != slots[j].id
  }

  ghost predicate IsLocal(slots: seq<PlayerSlot>, id: nat) {
    exists i :: 0 <= i < |slots| && slots[i].id == id && slots[i].connected && slots[i].local
  }

  lemma IsLocalSplits(slots: seq<PlayerSlot>, id: nat)
    requires slots != []
    ensures var n := |slots| - 1;
            IsLocal(slots, id) <==>
            IsLocal(slots[..n], id) || (slots[n].id == id && slots[n].connected && slots[n].local)
  {
    var front := slots[..|slots| - 1];
    if IsLocal(front, id) {
      var i :| 0 <= i < |front| && front[i].id == id && front[i].connected && front[i].local;
      assert slots[i].id == id;
    }
    if IsLocal(slots, id) {
      var i :| 0 <= i < |slots| && slots[i].id == id && slots[i].connected && slots[i].local;
      assert i < |front| ==> front[i].id == id;
    }
  }

  lemma {:induction false} LocalIdsAre(slots: seq<PlayerSlot>)
    ensures forall x :: x in LocalIds(slots) <==> IsLocal(slots, x)
    ensures DistinctSlots(slots) ==> NoRepeats(LocalIds(slots))
  {
    if slots != [] {
      var n := |slots| - 1;
      LocalIdsAre(slots[..n]);
      forall x ensures x in LocalIds(slots) <==> IsLocal(slots, x) { IsLocalSplits(slots, x); }
      if DistinctSlots(slots) && IsLocal(slots[..n], slots[n].id) {
        var i :| 0 <= i < n && slots[..n][i].id == slots[n].id;
        assert slots[i].id == slots[n].id;
      }
    }
  }

  lemma {:induction false} PrimaryOfSlot(slots: seq<PlayerSlot>, i: nat)
    requires DistinctSlots(slots) && i < |slots|
    ensures IsPrimary(slots, slots[i].id) == slots[i].primary
  {
    if i > 0 { PrimaryOfSlot(slots[1..], i - 1); }
  }

  /**
   The players of the lobby devices: as many as the lobby has, none twice, the local players
   among them, and the primary local player, if there is one, first.
   */
  lemma PlayerIdsAre(slots: seq<PlayerSlot>, count: nat)
    requires DistinctSlots(slots)
    ensures var ids := PlayerIds(slots, count);
            && NoRepeats(ids) && |ids| >= count
            && (forall i :: 0 <= i < |slots| && slots[i].connected && slots[i].local ==> slots[i].id in ids)
            && (forall i :: 0 <= i < |slots| && slots[i].connected && slots[i].local && slots[i].primary ==>
                  IsPrimary(slots, ids[0]))
  {
    var locals := LocalIds(slots);
    var sorted := SortedIds(slots, locals);
    LocalIdsAre(slots);
    SortedIdsIs(slots, locals);
    FilledIs(sorted, 1, count);
    var ids := PlayerIds(slots, count);
    forall i | 0 <= i < |slots| && slots[i].connected && slots[i].local
      ensures slots[i].id in ids && (slots[i].primary ==> IsPrimary(slots, ids[0]))
    {
      assert IsLocal(slots, slots[i].id);
      assert slots[i].id in multiset(sorted);
      var k :| 0 <= k < |sorted| && sorted[k] == slots[i].id;
      PrimaryOfSlot(slots, i);
      assert ids[0] == sorted[0] && ids[k] == sorted[k];
      if slots[i].primary && k > 0 { assert !Before(slots, sorted[k], sorted[0]); }
    }
  }

  /** The local players come first, primary players before the others, and each kind by id. */
  lemma PlayerIdsOrder(slots: seq<PlayerSlot>, count: nat, i: nat, j: nat)
    requires DistinctSlots(slots) && i < j < |LocalIds(slots)|
    ensures var ids := PlayerIds(slots, count);
            && |LocalIds(slots)| <= |ids| && ids[i] in LocalIds(slots) && ids[j] in LocalIds(slots)
            && (IsPrimary(slots, ids[j]) ==> IsPrimary(slots, ids[i]))
            && ((IsPrimary(slots, ids[i]) <==> IsPrimary(slots, ids[j])) ==> ids[i] < ids[j])
  {
    var locals := LocalIds(slots);
    var sorted := SortedIds(slots, locals);
    LocalIdsAre(slots);
    SortedIdsIs(slots, locals);
    FilledIs(sorted, 1, count);
    assert |sorted| == |locals| by { assert |multiset(sorted)| == |multiset(locals)|; }
    assert !PrimaryFirst(slots)(sorted[j], sorted[i]);
    hide LocalIds, SortedIds, IsPrimary;
  }

  // ----- the frames -----

  // The last device among the first n that plays a player, or n if none does.
  function LastDevice(ids: seq<nat>, n: nat, id: nat): (k: nat)
    requires n <= |ids|
    ensures k <= n && (k < n ==> ids[k] == id)
    ensures forall j :: (if k < n then k + 1 else 0) <= j < n ==> ids[j] != id
  {
    if n == 0 then 0
    else if ids[n - 1] == id then n - 1
    else
      var k := LastDevice(ids, n - 1, id);
      if k == n - 1 then n else k
  }

  function Landed(ids: seq<nat>, n: nat, build: nat -> InputFrame, id: nat): InputFrame
    requires n <= |ids|
  {
    var k := LastDevice(ids, n, id);
    if k < n then build(k) else NEUTRAL
  }

  ghost predicate IsMax(ids: seq<nat>, n: nat, top: nat)
    requires n <= |ids|
  {
    (forall i :: 0 <= i < n ==> ids[i] <= top) && (top == 0 || exists i :: 0 <= i < n && ids[i] == top)
  }

  /** With a player per device, each device's frame is at its player's place and nothing else is anywhere. */
  lemma EachLands(ids: seq<nat>, n: nat, build: nat -> InputFrame, id: nat)
    requires n <= |ids| && NoRepeats(ids)
    ensures forall i :: 0 <= i < n && ids[i] == id ==> Landed(ids, n, build, id) == build(i)
    ensures (forall i :: 0 <= i < n ==> ids[i] != id) ==> Landed(ids, n, build, id) == NEUTRAL
  {
  }

  class LobbyState {
    var slots: seq<PlayerSlot>
    var externalFrames: seq<InputFrame>
    var useExternalFrames: bool

    constructor (slots: seq<PlayerSlot>)
      ensures this.slots == slots && externalFrames == [] && !useExternalFrames
    {
      this.slots := slots;
      externalFrames := [];
      useExternalFrames := false;
    }

    method LocalPlayerIdsForLobbyInput(lobbyPlayerCount: nat) returns (playerIds: seq<nat>)
      ensures playerIds == PlayerIds(slots, lobbyPlayerCount)
    {
      playerIds := [];
      for i := 0 to |slots|
        invariant playerIds == LocalIds(slots[..i])
      {
        assert slots[..i + 1][..i] == slots[..i];
        if !slots[i].connected || !slots[i].local {
          continue;
        }
        playerIds := playerIds + [slots[i].id];
      }
      assert slots[..|slots|] == slots;
      playerIds := SortedIds(slots, playerIds);
      ghost var sorted := playerIds;
      var fallbackId: nat := 1;
      hide SortedIds, LocalIds, Filled;
      FilledStep(playerIds, fallbackId, lobbyPlayerCount);
      while |playerIds| < lobbyPlayerCount
        invariant fallbackId >= 1 && HasUpTo(playerIds, fallbackId)
        invariant Filled(playerIds, fallbackId, lobbyPlayerCount) == Filled(sorted, 1, lobbyPlayerCount)
        invariant |playerIds| >= lobbyPlayerCount ==> playerIds == Filled(playerIds, fallbackId, lobbyPlayerCount)
        decreases lobbyPlayerCount + 1 - fallbackId
      {
        FilledStep(playerIds, fallbackId, lobbyPlayerCount);
        if fallbackId !in playerIds {
          playerIds := playerIds + [fallbackId];
        }
        fallbackId := fallbackId + 1;
        FilledStep(playerIds, fallbackId, lobbyPlayerCount);
      }
    }

    /** Every player's place holds the frame of the last device that plays it, or the neutral frame. */
    method ApplyLobbyGameplayInput(localPlayers: nat, build: nat -> InputFrame)
      modifies this`externalFrames, this`useExternalFrames
      ensures useExternalFrames
      ensures var n := if localPlayers > 1 then localPlayers else 1;
              var ids := PlayerIds(slots, n);
              && n <= |ids| && IsMax(ids, n, |externalFrames|)
              && forall k :: 0 <= k < |externalFrames| ==> externalFrames[k] == Landed(ids, n, build, k + 1)
    {
      var playerCount := if localPlayers > 1 then localPlayers else 1;
      var playerIds := LocalPlayerIdsForLobbyInput(playerCount);
      FilledIs(SortedIds(slots, LocalIds(slots)), 1, playerCount);
      hide PlayerIds, Filled, SortedIds, LocalIds;
      var maxPlayerId := MaxPlayerId(playerIds, playerCount);
      externalFrames := seq(maxPlayerId, i => NEUTRAL);
      WriteFrames(playerIds, playerCount, build);
      useExternalFrames := true;
    }

    method MaxPlayerId(playerIds: seq<nat>, playerCount: nat) returns (top: nat)
      requires playerCount <= |playerIds|
      ensures IsMax(playerIds, playerCount, top)
    {
      top := 0;
      for i := 0 to playerCount
        invariant IsMax(playerIds, i, top)
      {
        if playerIds[i] > top {
          top := playerIds[i];
        }
      }
    }

    method WriteFrames(playerIds: seq<nat>, playerCount: nat, build: nat -> InputFrame)
      requires playerCount <= |playerIds| && IsMax(playerIds, playerCount, |externalFrames|)
      requires forall k :: 0 <= k < |externalFrames| ==> externalFrames[k] == NEUTRAL
      modifies this`externalFrames
      ensures |externalFrames| == old(|externalFrames|)
      ensures forall k :: 0 <= k < |externalFrames| ==>
              externalFrames[k] == Landed(playerIds, playerCount, build, k + 1)
    {
      for i := 0 to playerCount
        invariant |externalFrames| == old(|externalFrames|)
        invariant forall k :: 0 <= k < |externalFrames| ==> externalFrames[k] == Landed(playerIds, i, build, k + 1)
      {
        var playerId := playerIds[i];
        if playerId < 1 {
          continue;
        }
        externalFrames := externalFrames[playerId - 1 := build(i)];
      }
    }
  }
}
