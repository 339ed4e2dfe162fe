/** The session of a networked peer, updated in place. */
module PeerSessions {
  import opened Options
  import opened InputFrames
  import opened InputBuffer
  import opened Snapshots
  import opened PeerRollback
  import opened HostStream

  // No session is active; or a join barrier, a desync, a resync, a pending join or the lack of any
  // player holds it up; or neither.
  datatype Gate = Inactive | Blocked | Open

  // ----- what is sent -----

  function FirstInputHistoryFrame(lastFrame: nat): (first: nat)
    ensures first <= lastFrame
  {
    if lastFrame + 1 <= INPUT_HISTORY_FRAMES + 1 then 0 else lastFrame + 1 - (INPUT_HISTORY_FRAMES + 1)
  }

  // All the packets of a list of records, none of them empty.
  ghost predicate CutUp(records: seq<Record>, packets: seq<seq<Record>>) {
    && (forall j :: 0 <= j < |packets| ==> packets[j] == Slice(records, j) && packets[j] != [])
    && |records| <= |packets| * RECORDS_PER_PACKET
  }

  method CutIntoPackets(records: seq<Record>) returns (packets: seq<seq<Record>>)
    ensures CutUp(records, packets)
  {
    packets := [];
    var offset := 0;
    while offset < |records|
      invariant offset <= |records|
      invariant offset == |packets| * RECORDS_PER_PACKET || (offset == |records| <= |packets| * RECORDS_PER_PACKET)
      invariant forall j :: 0 <= j < |packets| ==> packets[j] == Slice(records, j) && packets[j] != []
    {
      var left := |records| - offset;
      var count := if left < RECORDS_PER_PACKET then left else RECORDS_PER_PACKET;
      packets := packets + [records[offset..offset + count]];
      offset := offset + count;
    }
  }

  // The peer's own players, in the order of the players.
  function LocalIds<S>(c: Config<S>, n: nat): seq<nat>
    requires n <= |c.players|
  {
    if n == 0 then []
    else LocalIds(c, n - 1) + if c.players[n - 1] in c.locals then [c.players[n - 1]] else []
  }

  lemma {:induction false} LocalIdsAre<S>(c: Config<S>, n: nat, id: nat)
    requires n <= |c.players|
    ensures id in LocalIds(c, n) <==> id in c.players[..n] && id in c.locals
  {
    if n > 0 {
      LocalIdsAre(c, n - 1, id);
      assert c.players[..n] == c.players[..n - 1] + [c.players[n - 1]];
    }
  }

  // The peer's own burst when its queue ends at local.
  function OwnRecords<S>(c: Config<S>, table: Table, local: nat): seq<Record> {
    var first := Low(local, INPUT_HISTORY_FRAMES + 1);
    Collected(table, false, LocalIds(c, |c.players|), first, local - first)
  }

  lemma {:induction false} CollectedAtNames(table: Table, players: seq<nat>, frame: nat, i: nat, k: Key)
    requires i <= |players| && Keyed(table)
    ensures Names(CollectedAt(table, false, players, frame, i), k) <==>
            k in table && k.frame == frame && k.playerId in players[..i]
    ensures |CollectedAt(table, false, players, frame, i)| <= i
  {
    if i > 0 {
      CollectedAtNames(table, players, frame, i - 1, k);
      var rest, own := CollectedAt(table, false, players, frame, i - 1), Key(players[i - 1], frame);
      assert players[..i] == players[..i - 1] + [players[i - 1]];
      if own in table {
        NamesOfBoth(rest, [table[own]], k);
        assert Names([table[own]], k) <==> k == own by { assert [table[own]][0].KeyOf() == own; }
      }
      hide Names;
    }
  }

  lemma {:induction false} CollectedNames(table: Table, players: seq<nat>, first: nat, n: nat, k: Key)
    requires Keyed(table)
    ensures Names(Collected(table, false, players, first, n), k) <==>
            k in table && first <= k.frame < first + n && k.playerId in players
    ensures |Collected(table, false, players, first, n)| <= |players| * n
  {
    if n > 0 {
      CollectedNames(table, players, first, n - 1, k);
      CollectedAtNames(table, players, first + n - 1, |players|, k);
      assert players[..|players|] == players;
      NamesOfBoth(Collected(table, false, players, first, n - 1),
                  CollectedAt(table, false, players, first + n - 1, |players|), k);
      hide Names, CollectedAt;
    }
  }

  /** The own burst carries the own inputs of its frames that are recorded, and nothing else. */
  lemma OwnRecordsCarry<S>(c: Config<S>, table: Table, local: nat, k: Key)
    requires Keyed(table)
    ensures Names(OwnRecords(c, table, local), k) <==>
            k in table && Low(local, INPUT_HISTORY_FRAMES + 1) <= k.frame < local &&
            k.playerId in c.players && k.playerId in c.locals
    ensures |OwnRecords(c, table, local)| <= |LocalIds(c, |c.players|)| * (INPUT_HISTORY_FRAMES + 1)
  {
    var ids, first := LocalIds(c, |c.players|), Low(local, INPUT_HISTORY_FRAMES + 1);
    hide Names, Collected, LocalIds, Keyed;
    CollectedNames(table, ids, first, local - first, k);
    LocalIdsAre(c, |c.players|, k.playerId);
    assert c.players[..|c.players|] == c.players;
    MoreFrames(|ids|, local - first, INPUT_HISTORY_FRAMES + 1);
  }

  // Whatever is collected is a record of the buffer.
  ghost predicate AllFrom(records: seq<Record>, table: Table) {
    forall i :: 0 <= i < |records| ==> records[i].KeyOf() in table && table[records[i].KeyOf()] == records[i]
  }

  lemma {:induction false} CollectedAtFrom(table: Table, players: seq<nat>, frame: nat, i: nat)
    requires i <= |players| && Keyed(table)
    ensures AllFrom(CollectedAt(table, false, players, frame, i), table)
  {
    if i > 0 { CollectedAtFrom(table, players, frame, i - 1); }
  }

  lemma {:induction false} CollectedFrom(table: Table, players: seq<nat>, first: nat, n: nat)
    requires Keyed(table)
    ensures AllFrom(Collected(table, false, players, first, n), table)
  {
    if n > 0 {
      CollectedFrom(table, players, first, n - 1);
      CollectedAtFrom(table, players, first + n - 1, |players|);
    }
  }

  lemma OwnRecordsFrom<S>(c: Config<S>, table: Table, local: nat)
    requires Keyed(table)
    ensures AllFrom(OwnRecords(c, table, local), table)
  {
    var first := Low(local, INPUT_HISTORY_FRAMES + 1);
    CollectedFrom(table, LocalIds(c, |c.players|), first, local - first);
  }

  lemma MoreFrames(n: nat, a: nat, b: nat)
    requires a <= b
    ensures n * a <= n * b
  {
  }

  // ----- predictions -----

  // At most one record is new: a prediction for a remote player, repeating its last actual input.
  ghost predicate Guesses<S>(c: Config<S>, table: Table, playerId: nat, frame: nat, longer: Table) {
    && Extends(table, longer)
    && forall k :: k in longer && k !in table ==>
         k == Key(playerId, frame) && playerId !in c.locals && longer[k].predicted && !longer[k].canonical &&
         Repeats(table, playerId, frame, longer[k].input)
  }

  lemma OneMoreGuess<S>(c: Config<S>, table: Table, longer: Table, frame: nat, playerId: nat, last: Table)
    requires Predicts(c, table, frame, longer) && Guesses(c, longer, playerId, frame, last)
    ensures Predicts(c, table, frame, last)
    ensures forall k :: k in table ==> k in longer
    ensures forall k :: k in longer ==> k in last && last[k] == longer[k]
    ensures forall k :: k in longer && k.playerId in c.locals ==> k in table
  {
    hide Repeats;
    if Key(playerId, frame) in last && Key(playerId, frame) !in longer {
      RepeatsAlike(table, longer, playerId, frame, last[Key(playerId, frame)].input);
    }
  }

  class PeerSession<S> {
    const c: Config<S>
    const buffer: LockstepInputBuffer
    var snapshots: seq<Snapshot<S>>
    var requested: Option<nat>
    var nextFrame: nat
    var state: S
    ghost var used: seq<seq<InputFrame>>

    ghost function View(): Peer<S>
      reads this, buffer
    {
      Peer(buffer.table, snapshots, requested, nextFrame, state, used)
    }

    ghost predicate Valid()
      reads this, buffer
    {
      buffer.Valid() && AtRest(c, View()) && INVALID_PLAYER_ID !in c.players
    }

    /** A session begins at a reset, or with a snapshot of the host's state before frame base. */
    constructor (c: Config<S>, snapshot: S, ghost past: seq<seq<InputFrame>>)
      requires INVALID_PLAYER_ID !in c.players && |past| == c.base && snapshot == Fold(c, past)
      ensures Valid() && fresh(buffer) && this.c == c && View() == Peer(map[], [], None, c.base, snapshot, past)
    {
      this.c := c;
      buffer := new LockstepInputBuffer();
      snapshots, requested, nextFrame, state, used := [], None, c.base, snapshot, past;
      new;
      hide Fold;
    }

    method RequestRollbackFromFrame(frame: nat)
      modifies this`requested
      ensures requested == Request(old(requested), Some(frame), nextFrame)
    {
      if frame >= nextFrame {
        return;
      }
      if requested.None? || frame < requested.value {
        requested := Some(frame);
      }
    }

    // One record that came in, with a mismatch turned into a request.
    method TakeRecord(record: Record)
      requires Valid()
      modifies this`requested, buffer
      ensures Valid() && View() == RecordStored(old(View()), record)
      ensures nextFrame == old(nextFrame) && used == old(used) && buffer.table == Stored(old(buffer.table), record)
    {
      StoreKeeps(c, View(), record);
      hide Consistent, FindSnapshot, Stored, Outcome;
      var result := buffer.Store(record);
      if result.mismatchFrame.Some? {
        RequestRollbackFromFrame(result.mismatchFrame.value);
      }
    }

    /** The host's records, in any order and any number of times; a peer ignores the others. */
    method HandleInputFrameRecords(records: seq<Record>, ghost truth: Truth)
      requires Valid()
      modifies this`requested, buffer
      ensures Valid() && View() == CanonicalStored(old(View()), records)
      ensures old(Faithful(c, View(), truth)) && HonestRecords(records, truth) ==> Faithful(c, View(), truth)
    {
      for i := 0 to |records|
        invariant Valid() && View() == CanonicalStored(old(View()), records[..i])
        invariant nextFrame == old(nextFrame) && used == old(used)
        invariant old(HonestHost(buffer.table, truth)) && HonestRecords(records, truth) ==>
                  HonestHost(buffer.table, truth)
      {
        hide AtRest, HonestHost, RecordStored;
        assert records[..i + 1][..i] == records[..i];
        if !records[i].canonical {
          continue;
        }
        if HonestRecords(records, truth) { StoreHonestly(buffer.table, records[i], truth); }
        TakeRecord(records[i]);
      }
      assert records[..|records|] == records;
    }

    // The peer's own input, with what the store says of it discarded: a change to a frame that
    // has been stepped is not replayed.
    method StoreLocalInput(playerId: nat, frame: nat, sequence: nat, input: InputFrame, ghost truth: Truth)
      requires Valid()
      modifies buffer
      ensures var own := Record(playerId, frame, sequence, input, false, false, false);
              && buffer.Valid() && View() == old(View()).(table := Stored(old(buffer.table), own))
              && (frame >= nextFrame || old(Outcome(buffer.table, own)).mismatchFrame.None? ==>
                    Valid() && (old(Faithful(c, View(), truth)) ==> Faithful(c, View(), truth)))
    {
      var record := Record(playerId, frame, sequence, input, false, false, false);
      StoreKeeps(c, View(), record);
      StoreHonestly(buffer.table, record, truth);
      MismatchIsAChangedInput(buffer.table, record);
      hide Consistent, FindSnapshot, Stored, Outcome;
      var _ := buffer.Store(record);
    }

    // One round of the queueing loop: the inputs of all the peer's own players for a frame.
    method QueueLocalInputs(frame: nat, own: nat -> InputFrame, sequence: nat)
      requires Valid() && frame >= nextFrame
      modifies buffer
      ensures Valid()
      ensures View() == old(View()).(table := Queued(c, old(buffer.table), |c.players|, frame, own, sequence))
    {
      ghost var before := View();
      QueuedKeeps(c, before, |c.players|, frame, own, sequence, (_, _) => NEUTRAL);
      hide AtRest, Stored, Outcome;
      for i := 0 to |c.players|
        invariant buffer.Valid() && View() == before.(table := Queued(c, before.table, i, frame, own, sequence))
      {
        if c.players[i] in c.locals {
          var _ := buffer.Store(Record(c.players[i], frame, sequence, own(c.players[i]), false, false, false));
        }
      }
    }

    /** The peer's own inputs for every frame up to the input delay, each with its own sequence number. */
    method QueueLocalInputsThroughTargetFrame(nextLocal: nat, nextSequence: nat, own: nat -> InputFrame)
      returns (local: nat, sequence: nat)
      requires Valid() && nextLocal >= nextFrame
      modifies buffer
      ensures Valid() && local == Max(nextLocal, nextFrame + c.delay + 1) &&
              sequence == nextSequence + (local - nextLocal)
      ensures View() == old(View()).(
                table := QueuedFrames(c, old(buffer.table), nextLocal, local - nextLocal, own, nextSequence))
    {
      local, sequence := nextLocal, nextSequence;
      ghost var before := View();
      while local <= nextFrame + c.delay
        invariant Valid() && nextLocal <= local <= Max(nextLocal, nextFrame + c.delay + 1)
        invariant sequence == nextSequence + (local - nextLocal)
        invariant View() == before.(
                    table := QueuedFrames(c, before.table, nextLocal, local - nextLocal, own, nextSequence))
      {
        hide AtRest, Queued;
        QueueLocalInputs(local, own, sequence);
        local, sequence := local + 1, sequence + 1;
      }
    }

    // May the next frame be stepped without running too far ahead of any remote player?
    method CanStepWithoutRunningAhead() returns (ok: bool)
      requires Valid()
      ensures ok <==> CanStep(c, buffer.table, nextFrame)
    {
      hide AtRest;
      for i := 0 to |c.players|
        invariant forall j :: 0 <= j < i && c.players[j] !in c.locals ==>
                  NearEnough(c, buffer.table, c.players[j], nextFrame)
      {
        if c.players[i] in c.locals {
          continue;
        }
        var latest := buffer.LatestFrameForPlayer(c.players[i], false);
        LatestDecides(c, buffer.table, c.players[i], nextFrame, latest);
        if latest.None? || latest.value < c.delay {
          return false;
        }
        if nextFrame > latest.value - c.delay + c.window {
          return false;
        }
      }
      ok := true;
    }

    // The recorded input of a player, or for a remote player a prediction stored in its place.
    method FindOrPredict(playerId: nat, frame: nat, allowPrediction: bool) returns (input: Option<InputFrame>)
      requires buffer.Valid() && playerId != INVALID_PLAYER_ID
      modifies buffer
      ensures buffer.Valid() && Guesses(c, old(buffer.table), playerId, frame, buffer.table)
      ensures input.Some? <==> Key(playerId, frame) in old(buffer.table) || (allowPrediction && playerId !in c.locals)
      ensures Key(playerId, frame) in old(buffer.table) ==> buffer.table == old(buffer.table)
      ensures input ==
              if Key(playerId, frame) in buffer.table then Some(buffer.table[Key(playerId, frame)].input) else None
    {
      input := buffer.Find(playerId, frame);
      if input.None? && allowPrediction && playerId !in c.locals {
        var latest := buffer.FindLatestRecordBefore(playerId, frame);
        var guess := if latest.Some? then latest.value.input else NEUTRAL;
        LatestRepeats(buffer.table, playerId, frame, latest);
        var _ := buffer.Store(Record(playerId, frame, 0, guess, true, false, false));
        input := buffer.Find(playerId, frame);
      }
    }

    method BuildOrPredictFrameInputs(frame: nat, allowPrediction: bool) returns (ready: bool, inputs: seq<InputFrame>)
      requires buffer.Valid() && INVALID_PLAYER_ID !in c.players
      modifies buffer
      ensures buffer.Valid() && Predicts(c, old(buffer.table), frame, buffer.table)
      ensures AllPresent(c, old(buffer.table), frame) ==> ready && buffer.table == old(buffer.table)
      ensures ready ==> AllPresent(c, buffer.table, frame) && inputs == InputsAt(c, buffer.table, frame)
      ensures allowPrediction ==> (ready <==> LocalsPresent(c, old(buffer.table), frame))
    {
      inputs := [];
      assert Predicts(c, buffer.table, frame, buffer.table);
      hide Predicts, Guesses, LockstepInputBuffer.Valid;
      for i := 0 to |c.players|
        invariant buffer.Valid() && Predicts(c, old(buffer.table), frame, buffer.table) && |inputs| == i
        invariant AllPresent(c, old(buffer.table), frame) ==> buffer.table == old(buffer.table)
        invariant allowPrediction ==> forall j :: 0 <= j < i && c.players[j] in c.locals ==>
                    Key(c.players[j], frame) in old(buffer.table)
        invariant forall j :: 0 <= j < i ==> Key(c.players[j], frame) in buffer.table &&
                                             inputs[j] == InputOf(buffer.table, c.players[j], frame)
      {
        ghost var before := buffer.table;
        var input := FindOrPredict(c.players[i], frame, allowPrediction);
        OneMoreGuess(c, old(buffer.table), before, frame, c.players[i], buffer.table);
        if input.None? {
          return false, [];
        }
        inputs := inputs + [input.value];
      }
      ready := true;
    }

    method StepFrame(inputs: seq<InputFrame>)
      requires inputs == InputsAt(c, buffer.table, nextFrame)
      modifies this`snapshots, this`state, this`nextFrame, this`used
      ensures View() == Stepped(c, old(View()))
    {
      snapshots := SaveRollbackSnapshot(snapshots, nextFrame, state);
      state := c.tick(state, inputs);
      nextFrame := nextFrame + 1;
      used := used + [inputs];
    }

    method PruneRollbackSnapshots()
      modifies this`snapshots
      ensures View() == SnapshotsPruned(c, old(View()))
    {
      var first := if nextFrame > c.Kept() then nextFrame - c.Kept() else 0;
      var kept: seq<Snapshot<S>> := [];
      for i := 0 to |snapshots|
        invariant snapshots == old(snapshots) && kept == SnapshotsFrom(snapshots[..i], first)
      {
        assert snapshots[..i + 1][..i] == snapshots[..i];
        if snapshots[i].frame >= first {
          kept := kept + [snapshots[i]];
        }
      }
      assert snapshots[..|snapshots|] == snapshots;
      snapshots := kept;
    }

    /**
     Restore the requested snapshot and step again to where the peer was. It fails exactly when
     the request lies before the snapshot window; frames before the window are never stepped again.
     */
    method ReplayRollbackWindow() returns (ok: bool)
      requires Valid()
      modifies this, buffer
      ensures ok <==> old(requested.None? || requested.value >= c.From(nextFrame, c.Kept()))
      ensures buffer.Valid() && (ok <==> old(!SnapshotMissing(View())))
      ensures ok ==> old(requested.Some? ==> requested.value <= |used|) && View() == Replayed(c, old(View()))
      ensures ok ==> Valid() && requested.None? && nextFrame == old(nextFrame)
      ensures ok ==> buffer.table == old(buffer.table)
      ensures ok ==> |used| == old(|used|) && Shared(old(used), used, c.From(nextFrame, c.Kept()))
      ensures !ok ==> View() == old(View()).(requested := None)
    {
      if requested.None? {
        assert Shared(used, used, c.From(nextFrame, c.Kept()));
        return true;
      }
      SnapshotThere(c, View());
      var snapshot := FindRollbackSnapshot(snapshots, requested.value);
      if snapshot.None? {
        requested := None;
        return false;
      }
      RestoreKeeps(c, View());
      ReplayedKeeps(c, View());
      hide AtRest, Consistent, ReplayedTo, Stepped, Shared, Low, SnapshotsPruned;
      ReplayFrom(snapshot.value);
      ok := true;
    }

    method ReplayFrom(snapshot: S)
      requires Valid() && requested.Some? && requested.value <= |used|
      requires FindSnapshot(snapshots, requested.value) == Some(snapshot) &&
               requested.value >= c.From(nextFrame, c.Kept())
      modifies this, buffer
      ensures buffer.Valid() && buffer.table == old(buffer.table)
      ensures View() == SnapshotsPruned(c, ReplayedTo(c, Restored(old(View())), old(nextFrame)))
    {
      RestoreKeeps(c, View());
      var rollbackFrame, target := requested.value, nextFrame;
      requested := None;
      state := snapshot;
      nextFrame := rollbackFrame;
      used := used[..rollbackFrame];
      assert View() == Restored(old(View()));
      hide AtRest, Consistent, SnapshotsPruned;
      ReplayTo(target);
      PruneRollbackSnapshots();
    }

    method ReplayTo(target: nat)
      requires buffer.Valid() && Consistent(c, View(), target) && requested.None? && INVALID_PLAYER_ID !in c.players
      requires c.From(target, c.Kept()) <= nextFrame
      modifies this, buffer
      ensures buffer.Valid() && buffer.table == old(buffer.table) && View() == ReplayedTo(c, old(View()), target)
    {
      while nextFrame < target
        invariant buffer.Valid() && Consistent(c, View(), target) && requested.None? && nextFrame <= target
        invariant buffer.table == old(buffer.table) && c.From(target, c.Kept()) <= nextFrame
        invariant ReplayedTo(c, View(), target) == ReplayedTo(c, old(View()), target)
      {
        ReplayPresent(c, View(), target);
        hide Consistent, AllPresent, InputsAt, Fold, Predicts;
        var ready, inputs := BuildOrPredictFrameInputs(nextFrame, true);
        StepKeeps(c, View(), target);
        StepFrame(inputs);
      }
    }

    /** What is sent after queueing: the own burst, in packets of 16 records. */
    method BuildLocalInputFramePackets(nextLocal: nat) returns (packets: seq<seq<Record>>)
      requires Valid()
      ensures CutUp(OwnRecords(c, buffer.table, nextLocal), packets)
    {
      packets := [];
      var ids: seq<nat> := [];
      for i := 0 to |c.players|
        invariant ids == LocalIds(c, i)
      {
        if c.players[i] in c.locals {
          ids := ids + [c.players[i]];
        }
      }
      OwnRecordsCarry(c, buffer.table, nextLocal, Key(0, 0));
      if |ids| == 0 || nextLocal == 0 {
        return;
      }
      var last := nextLocal - 1;
      hide Collected, AtRest;
      var records := buffer.CollectRecords(
        ids, FirstInputHistoryFrame(last), last, |ids| * (INPUT_HISTORY_FRAMES + 1));
      packets := CutIntoPackets(records);
    }

    /**
     Prepare the next frame, unless something before it says not to: wait, ask for a resync, or roll
     back if asked to and step it. The game goes on only if the frame is stepped, or there is no session.
     */
    method PrepareInputLockstepFrame(gate: Gate, ghost truth: Truth) returns (go: bool, result: Prepared)
      requires Valid()
      modifies this, buffer
      ensures !gate.Open? ==> View() == old(View()) && result == Waiting && (go <==> gate.Inactive?)
      ensures gate.Open? ==> PreparedTo(c, old(View()), result, View()) && (go <==> result == Stepping)
      ensures result == Resync <==>
              gate.Open? &&
              old(CanStep(c, buffer.table, nextFrame) && requested.Some? &&
                  (requested.value < c.base || requested.value + c.window + 4 < nextFrame))
      ensures result == Stepping <==>
              gate.Open? && result != Resync &&
              old(CanStep(c, buffer.table, nextFrame) && LocalsPresent(c, buffer.table, nextFrame))
      ensures result == Stepping ==>
                && nextFrame == old(nextFrame) + 1
                && (forall k :: k in buffer.table ==>
                      k.frame + (if c.window + 4 > 12 then c.window + 4 else 12) >= nextFrame)
                && forall f: nat :: f < nextFrame ==>
                     (FindSnapshot(snapshots, f).Some? <==> f >= c.base && f + c.window + 4 >= nextFrame)
      ensures gate.Open? && result != Resync ==> Valid() && PreparedWell(c, old(View()), result, View(), truth)
    {
      if gate.Inactive? || gate.Blocked? {
        return gate.Inactive?, Waiting;
      }
      ghost var before := View();
      result := PrepareUnchecked();
      go := result == Stepping;
      PreparedWhen(c, before, result, View());
      if requested.Some? { FromSays(c, nextFrame, requested.value); }
      hide PreparedTo, CanStep, LocalsPresent, AtRest, PreparedWell;
      if result != Resync {
        PreparedKeeps(c, before, result, View(), truth);
        PreparedRests(c, before, result, View(), truth);
        PreparedLeaves(c, before, result, View(), truth);
      }
    }

    method PrepareUnchecked() returns (result: Prepared)
      requires Valid()
      modifies this, buffer
      ensures buffer.Valid() && PreparedTo(c, old(View()), result, View())
    {
      var may := CanStepWithoutRunningAhead();
      if !may {
        return Waiting;
      }
      hide CanStep, AtRest, Shared;
      var ok := ReplayRollbackWindow();
      if !ok {
        return Resync;
      }
      result := StepNew();
    }

    method StepNew() returns (result: Prepared)
      requires Valid() && requested.None?
      modifies this, buffer
      ensures buffer.Valid() && BuiltTo(c, old(View()), result, View())
    {
      ghost var before := View();
      hide AtRest, AllPresent, LocalsPresent, InputsAt, HistoryCleared, SnapshotsPruned, Repeats;
      var ready, inputs := BuildOrPredictFrameInputs(nextFrame, true);
      ghost var longer := buffer.table;
      if !ready {
        assert BuiltWith(c, before, longer, Waiting, View());
        return Waiting;
      }
      StepFrame(inputs);
      TrimWindows();
      assert BuiltWith(c, before, longer, Stepping, View());
      result := Stepping;
    }

    method TrimWindows()
      requires buffer.Valid()
      modifies this`snapshots, buffer
      ensures buffer.Valid() && View() == SnapshotsPruned(c, HistoryCleared(c, old(View())))
    {
      hide SnapshotsFrom, KeptFrom;
      ClearInputHistory();
      PruneRollbackSnapshots();
    }

    method ClearInputHistory()
      requires buffer.Valid()
      modifies buffer
      ensures buffer.Valid() && View() == HistoryCleared(c, old(View()))
    {
      if nextFrame > c.History() {
        buffer.ClearBefore(nextFrame - c.History());
      }
    }
  }
}
