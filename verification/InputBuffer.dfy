/**
 The lockstep input buffer: one record per (player, frame), holding actual inputs,
 predictions, canonical records and records a host guessed for a missing player.
 */
module InputBuffer {
  import opened Options
  import opened InputFrames

  const INVALID_PLAYER_ID := 0

  datatype Key = Key(playerId: nat, frame: nat)

  datatype Record = Record(
    playerId: nat, frame: nat, sequence: nat, input: InputFrame,
    predicted: bool, canonical: bool, arbitratedMissing: bool)
  {
    function KeyOf(): Key { Key(playerId, frame) }
  }

  datatype StoreResult = StoreResult(
    inserted: bool, replacedPrediction: bool, changedExisting: bool, mismatchFrame: Option<nat>)

  const NOTHING_STORED := StoreResult(false, false, false, None)

  // What the buffer holds, by key.
  type Table = map<Key, Record>

  function InputOf(table: Table, playerId: nat, frame: nat): InputFrame {
    if Key(playerId, frame) in table then table[Key(playerId, frame)].input else NEUTRAL
  }

  // ----- what one store does to the record already there -----
  // Inputs are compared whole: the packed comparison of the code is equality of frames.

  predicate Replaces(existing: Record, record: Record) {
    if existing.canonical && !record.canonical then
      existing.arbitratedMissing && existing.input != record.input
    else if record.canonical || (existing.predicted && !record.predicted) then true
    else if !existing.predicted && record.predicted then false
    else record.sequence >= existing.sequence
  }

  function Stored(table: Table, record: Record): Table {
    if record.playerId == INVALID_PLAYER_ID then table
    else if record.KeyOf() in table && !Replaces(table[record.KeyOf()], record) then table
    else table[record.KeyOf() := record]
  }

  function Outcome(table: Table, record: Record): StoreResult {
    if record.playerId == INVALID_PLAYER_ID then NOTHING_STORED
    else if record.KeyOf() !in table then StoreResult(true, false, false, None)
    else
      var existing := table[record.KeyOf()];
      var changed := existing.input != record.input;
      if !Replaces(existing, record) then NOTHING_STORED
      else StoreResult(
             false,
             existing.predicted && !record.predicted && (existing.canonical ==> record.canonical),
             changed,
             if changed then Some(record.frame) else None)
  }

  ghost predicate Keyed(table: Table) {
    forall k :: k in table ==> table[k].KeyOf() == k && k.playerId != INVALID_PLAYER_ID
  }

  /**
   A mismatch is reported exactly when a record was there and its input is now another;
   a prediction counts as replaced exactly when it gave way to an actual input.
   */
  lemma MismatchIsAChangedInput(table: Table, record: Record)
    requires Keyed(table)
    ensures var k := record.KeyOf();
            var after := Stored(table, record);
            var outcome := Outcome(table, record);
            && (outcome.mismatchFrame.Some? <==> k in table && k in after && table[k].input != after[k].input)
            && (outcome.mismatchFrame.Some? ==> outcome.mismatchFrame.value == record.frame)
            && (outcome.changedExisting <==> outcome.mismatchFrame.Some?)
            && (outcome.inserted <==> k !in table && k in after)
            && (outcome.replacedPrediction <==>
                k in table && table[k].predicted && (table[k].canonical ==> record.canonical) &&
                k in after && !after[k].predicted)
  {
  }

  /** A canonical record that was not a host's guess yields to canonical records only. */
  lemma CanonicalStands(table: Table, record: Record, k: Key)
    requires k in table && table[k].canonical && !table[k].arbitratedMissing && !record.canonical
    ensures k in Stored(table, record) && Stored(table, record)[k] == table[k]
  {
  }

  function StoredAll(table: Table, stores: seq<Record>): Table
    decreases |stores|
  {
    if stores == [] then table else StoredAll(Stored(table, stores[0]), stores[1..])
  }

  /**
   Delivery order does not matter once a key has one canonical input x: after any sequence
   of stores (predictions, stale owner records, duplicates) with a canonical record for the
   key somewhere in it, the buffer holds x there, canonical.
   */
  lemma {:induction false} CanonicalInputWins(table: Table, stores: seq<Record>, k: Key, x: InputFrame)
    requires k.playerId != INVALID_PLAYER_ID
    requires forall i :: 0 <= i < |stores| && stores[i].KeyOf() == k && stores[i].canonical ==>
               stores[i].input == x && !stores[i].arbitratedMissing
    requires k in table && table[k].canonical ==> table[k].input == x && !table[k].arbitratedMissing
    requires (k in table && table[k].canonical) ||
             exists i :: 0 <= i < |stores| && stores[i].KeyOf() == k && stores[i].canonical
    ensures var end := StoredAll(table, stores);
            k in end && end[k].canonical && end[k].input == x
    decreases |stores|
  {
    if stores != [] {
      var rest := stores[1..];
      assert forall i :: 0 <= i < |rest| ==> rest[i] == stores[i + 1];
      if !(k in table && table[k].canonical) && !(stores[0].KeyOf() == k && stores[0].canonical) {
        var i :| 0 <= i < |stores| && stores[i].KeyOf() == k && stores[i].canonical;
        assert rest[i - 1].KeyOf() == k;
      }
      CanonicalInputWins(Stored(table, stores[0]), rest, k, x);
    }
  }

  function KeptFrom(table: Table, frame: nat): Table {
    map k | k in table && k.frame >= frame :: table[k]
  }

  function PredictedKeys(table: Table): set<Key> {
    set k | k in table && table[k].predicted
  }

  // The player's last actual input before the frame is at frame g.
  ghost predicate LatestActual(table: Table, playerId: nat, frame: nat, g: nat) {
    && g < frame && Key(playerId, g) in table && !table[Key(playerId, g)].predicted
    && forall k :: k in table && k.playerId == playerId && k.frame < frame && !table[k].predicted ==> k.frame <= g
  }

  /** A prediction repeats the player's last actual input, and is neutral when there is none. */
  ghost predicate Repeats(table: Table, playerId: nat, frame: nat, input: InputFrame) {
    if exists g :: LatestActual(table, playerId, frame, g)
    then exists g :: LatestActual(table, playerId, frame, g) && input == table[Key(playerId, g)].input
    else input == NEUTRAL
  }

  // Predictions beside the records that are there do not change what a prediction repeats.
  lemma RepeatsAlike(table: Table, longer: Table, playerId: nat, frame: nat, input: InputFrame)
    requires forall k :: k in table ==> k in longer && longer[k] == table[k]
    requires forall k :: k in longer && k !in table ==> longer[k].predicted
    ensures Repeats(table, playerId, frame, input) <==> Repeats(longer, playerId, frame, input)
  {
    assert forall g :: LatestActual(table, playerId, frame, g) <==> LatestActual(longer, playerId, frame, g);
  }

  lemma LatestRepeats(table: Table, playerId: nat, frame: nat, latest: Option<Record>)
    requires Keyed(table)
    requires latest.Some? ==>
               && latest.value.KeyOf() in table && table[latest.value.KeyOf()] == latest.value
               && latest.value.playerId == playerId && latest.value.frame < frame && !latest.value.predicted
    requires forall k :: k in table && k.playerId == playerId && k.frame < frame && !table[k].predicted ==>
               latest.Some? && k.frame <= latest.value.frame
    ensures forall input :: Repeats(table, playerId, frame, input) <==>
                            input == if latest.Some? then latest.value.input else NEUTRAL
  {
    if latest.Some? { assert LatestActual(table, playerId, frame, latest.value.frame); }
  }

  // The records of a frame for the first players of a list, all or the canonical ones, and those of
  // n frames.
  function CollectedAt(table: Table, strict: bool, players: seq<nat>, frame: nat, i: nat): seq<Record>
    requires i <= |players|
  {
    if i == 0 then []
    else
      var rest, k := CollectedAt(table, strict, players, frame, i - 1), Key(players[i - 1], frame);
      if k in table && (strict ==> table[k].canonical) then rest + [table[k]] else rest
  }

  function Collected(table: Table, strict: bool, players: seq<nat>, first: nat, n: nat): seq<Record> {
    if n == 0 then []
    else Collected(table, strict, players, first, n - 1) + CollectedAt(table, strict, players, first + n - 1, |players|)
  }

  lemma {:induction false} CollectedAtGrows(table: Table, strict: bool, players: seq<nat>, frame: nat, i: nat, j: nat)
    requires i <= j <= |players|
    ensures CollectedAt(table, strict, players, frame, i) <= CollectedAt(table, strict, players, frame, j)
    decreases j
  {
    if i < j { CollectedAtGrows(table, strict, players, frame, i, j - 1); }
  }

  lemma {:induction false} CollectedGrows(table: Table, strict: bool, players: seq<nat>, first: nat, n: nat, m: nat)
    requires n <= m
    ensures Collected(table, strict, players, first, n) <= Collected(table, strict, players, first, m)
    decreases m
  {
    if n < m { CollectedGrows(table, strict, players, first, n, m - 1); }
  }

  // In the middle of a frame.
  lemma CollectedSoFar(table: Table, strict: bool, players: seq<nat>, first: nat, n: nat, i: nat, m: nat)
    requires i <= |players| && n < m
    ensures Collected(table, strict, players, first, n) + CollectedAt(table, strict, players, first + n, i) <=
            Collected(table, strict, players, first, m)
  {
    CollectedAtGrows(table, strict, players, first + n, i, |players|);
    CollectedGrows(table, strict, players, first, n + 1, m);
    var a, b := Collected(table, strict, players, first, n), CollectedAt(table, strict, players, first + n, i);
    var d := Collected(table, strict, players, first, n + 1);
    assert a + b <= d;
  }

  lemma CollectedNone(table: Table, strict: bool, players: seq<nat>, first: nat)
    ensures Collected(table, strict, players, first, 0) == []
    ensures forall frame :: CollectedAt(table, strict, players, frame, 0) == []
  {
  }

  lemma CollectedNext(table: Table, strict: bool, players: seq<nat>, first: nat, n: nat, i: nat)
    requires i <= |players|
    ensures CollectedAt(table, strict, players, first + n, 0) == []
    ensures i == |players| ==>
              Collected(table, strict, players, first, n) + CollectedAt(table, strict, players, first + n, i) ==
              Collected(table, strict, players, first, n + 1)
    ensures i < |players| ==>
              var k := Key(players[i], first + n);
              CollectedAt(table, strict, players, first + n, i + 1) ==
              CollectedAt(table, strict, players, first + n, i) +
              if k in table && (strict ==> table[k].canonical) then [table[k]] else []
  {
  }

  function Cut(s: seq<Record>, most: nat): seq<Record> { if |s| <= most then s else s[..most] }

  // The vector of records holds exactly the table, each key once.
  ghost predicate Represents(records: seq<Record>, table: Table) {
    && Keyed(table)
    && (forall i :: 0 <= i < |records| ==> records[i].KeyOf() in table && table[records[i].KeyOf()] == records[i])
    && (forall i, j :: 0 <= i < j < |records| ==> records[i].KeyOf() != records[j].KeyOf())
    && (forall k :: k in table ==> table[k] in records)
  }

  class LockstepInputBuffer {
    var records: seq<Record>
    ghost var table: Table

    ghost predicate Valid()
      reads this
    {
      Represents(records, table)
    }

    constructor ()
      ensures Valid() && table == map[]
    {
      records, table := [], map[];
    }

    method Store(record: Record) returns (result: StoreResult)
      requires Valid()
      modifies this
      ensures Valid()
      ensures table == Stored(old(table), record)
      ensures result == Outcome(old(table), record)
    {
      result := NOTHING_STORED;
      if record.playerId == INVALID_PLAYER_ID {
        return;
      }
      for i := 0 to |records|
        invariant Valid() && records == old(records) && table == old(table)
        invariant result == NOTHING_STORED
        invariant forall j :: 0 <= j < i ==> records[j].KeyOf() != record.KeyOf()
      {
        var existing := records[i];
        if existing.playerId == record.playerId && existing.frame == record.frame {
          var equal := InputFramesEqual(existing.input, record.input);
          InputFramesEqualIsEquality(existing.input, record.input);
          if existing.canonical && !record.canonical {
            if existing.arbitratedMissing {
              if !equal {
                result := result.(changedExisting := true, mismatchFrame := Some(record.frame));
                Overwrite(i, record);
              }
              return;
            }
            return;
          }
          if record.canonical {
            if existing.predicted && !record.predicted {
              result := result.(replacedPrediction := true);
            }
            if !equal {
              result := result.(changedExisting := true, mismatchFrame := Some(record.frame));
            }
            Overwrite(i, record);
            return;
          }
          if existing.predicted && !record.predicted {
            result := result.(replacedPrediction := true);
            if !equal {
              result := result.(changedExisting := true, mismatchFrame := Some(record.frame));
            }
            Overwrite(i, record);
            return;
          }
          if !existing.predicted && record.predicted {
            return;
          }
          if record.sequence >= existing.sequence {
            if !equal {
              result := result.(changedExisting := true, mismatchFrame := Some(record.frame));
            }
            Overwrite(i, record);
          }
          return;
        }
      }
      assert record.KeyOf() !in table;
      records := records + [record];
      table := table[record.KeyOf() := record];
      result := result.(inserted := true);
    }

    // The assignment through the reference to an existing record.
    method Overwrite(i: nat, record: Record)
      requires Valid() && i < |records| && records[i].KeyOf() == record.KeyOf()
      modifies this
      ensures Valid() && table == old(table)[record.KeyOf() := record]
    {
      ghost var was := records;
      records := records[i := record];
      table := table[record.KeyOf() := record];
      forall k | k in table ensures table[k] in records {
        if k != record.KeyOf() {
          assert table[k] in was;
          var j :| 0 <= j < |was| && was[j] == table[k];
          assert records[j] == was[j];
        } else {
          assert records[i] == record;
        }
      }
    }

    method FindRecord(playerId: nat, frame: nat) returns (found: Option<Record>)
      requires Valid()
      ensures found == if Key(playerId, frame) in table then Some(table[Key(playerId, frame)]) else None
    {
      for i := 0 to |records|
        invariant forall j :: 0 <= j < i ==> records[j].KeyOf() != Key(playerId, frame)
      {
        if records[i].playerId == playerId && records[i].frame == frame {
          return Some(records[i]);
        }
      }
      return None;
    }

    method Find(playerId: nat, frame: nat) returns (input: Option<InputFrame>)
      requires Valid()
      ensures input == if Key(playerId, frame) in table then Some(table[Key(playerId, frame)].input) else None
    {
      var record := FindRecord(playerId, frame);
      input := if record.None? then None else Some(record.value.input);
    }

    /** The player's last record before the frame that is not itself a prediction. */
    method FindLatestRecordBefore(playerId: nat, frame: nat) returns (latest: Option<Record>)
      requires Valid()
      ensures latest.Some? ==>
                && latest.value.KeyOf() in table && table[latest.value.KeyOf()] == latest.value
                && latest.value.playerId == playerId && latest.value.frame < frame && !latest.value.predicted
      ensures forall k :: k in table && k.playerId == playerId && k.frame < frame && !table[k].predicted ==>
                latest.Some? && k.frame <= latest.value.frame
    {
      latest := None;
      for i := 0 to |records|
        invariant latest.Some? ==>
                    && latest.value in records && latest.value.playerId == playerId
                    && latest.value.frame < frame && !latest.value.predicted
        invariant forall j :: 0 <= j < i ==>
                    (records[j].playerId == playerId && records[j].frame < frame && !records[j].predicted ==>
                       latest.Some? && records[j].frame <= latest.value.frame)
      {
        var record := records[i];
        if record.playerId != playerId || record.frame >= frame || record.predicted {
          continue;
        }
        if latest.None? || record.frame > latest.value.frame {
          latest := Some(record);
        }
      }
    }

    /** The player's highest recorded frame, predictions included or not. */
    method LatestFrameForPlayer(playerId: nat, includePredicted: bool) returns (latest: Option<nat>)
      requires Valid()
      ensures latest.Some? ==> Key(playerId, latest.value) in table &&
                               (includePredicted || !table[Key(playerId, latest.value)].predicted)
      ensures forall k :: k in table && k.playerId == playerId && (includePredicted || !table[k].predicted) ==>
                latest.Some? && k.frame <= latest.value
    {
      latest := None;
      for i := 0 to |records|
        invariant latest.Some? ==> Key(playerId, latest.value) in table &&
                                   (includePredicted || !table[Key(playerId, latest.value)].predicted)
        invariant forall j :: 0 <= j < i ==>
                    (records[j].playerId == playerId && (includePredicted || !records[j].predicted) ==>
                       latest.Some? && records[j].frame <= latest.value)
      {
        var record := records[i];
        if record.playerId != playerId || (!includePredicted && record.predicted) {
          continue;
        }
        if latest.None? || record.frame > latest.value {
          assert record.KeyOf() == Key(playerId, record.frame);
          latest := Some(record.frame);
        }
      }
    }

    /** The inputs of all the players for the frame, or nothing if one is missing. */
    method BuildFrameInputs(requiredPlayers: seq<nat>, frame: nat) returns (ready: bool, inputs: seq<InputFrame>)
      requires Valid()
      ensures ready <==> forall i :: 0 <= i < |requiredPlayers| ==> Key(requiredPlayers[i], frame) in table
      ensures !ready ==> inputs == []
      ensures ready ==> |inputs| == |requiredPlayers| && forall i :: 0 <= i < |inputs| ==>
                inputs[i] == table[Key(requiredPlayers[i], frame)].input
    {
      inputs := [];
      for k := 0 to |requiredPlayers|
        invariant |inputs| == k
        invariant forall i :: 0 <= i < k ==> Key(requiredPlayers[i], frame) in table
        invariant forall i :: 0 <= i < k ==> inputs[i] == table[Key(requiredPlayers[i], frame)].input
      {
        var input := Find(requiredPlayers[k], frame);
        if input.None? {
          return false, [];
        }
        inputs := inputs + [input.value];
      }
      ready := true;
    }

    /** All the records of the players, frame by frame, as many as may be collected. */
    method CollectRecords(playerIds: seq<nat>, first: nat, last: nat, most: nat) returns (out: seq<Record>)
      requires Valid()
      ensures out == Cut(Collected(table, false, playerIds, first, if first <= last then last + 1 - first else 0), most)
    {
      out := [];
      if first > last {
        return;
      }
      ghost var all := Collected(table, false, playerIds, first, last + 1 - first);
      hide Collected, CollectedAt, Represents;
      CollectedNone(table, false, playerIds, first);
      for n := 0 to last + 1 - first
        invariant out == Collected(table, false, playerIds, first, n) && |out| <= most
      {
        for i := 0 to |playerIds|
          invariant out ==
                    Collected(table, false, playerIds, first, n) + CollectedAt(table, false, playerIds, first + n, i)
          invariant |out| <= most
        {
          CollectedSoFar(table, false, playerIds, first, n, i, last + 1 - first);
          if |out| >= most {
            return;
          }
          var record := FindRecord(playerIds[i], first + n);
          if record.Some? {
            out := out + [record.value];
          }
          CollectedNext(table, false, playerIds, first, n, i);
        }
        CollectedNext(table, false, playerIds, first, n, |playerIds|);
      }
    }

    /** The canonical records of the players, frame by frame, as many as may be collected. */
    method CollectCanonicalRecords(playerIds: seq<nat>, first: nat, last: nat, most: nat) returns (out: seq<Record>)
      requires Valid()
      ensures out == Cut(Collected(table, true, playerIds, first, if first <= last then last + 1 - first else 0), most)
    {
      out := [];
      if first > last {
        return;
      }
      ghost var all := Collected(table, true, playerIds, first, last + 1 - first);
      hide Collected, CollectedAt, Represents;
      CollectedNone(table, true, playerIds, first);
      for n := 0 to last + 1 - first
        invariant out == Collected(table, true, playerIds, first, n) && |out| <= most
      {
        for i := 0 to |playerIds|
          invariant out ==
                    Collected(table, true, playerIds, first, n) + CollectedAt(table, true, playerIds, first + n, i)
          invariant |out| <= most
        {
          CollectedSoFar(table, true, playerIds, first, n, i, last + 1 - first);
          if |out| >= most {
            return;
          }
          var record := FindRecord(playerIds[i], first + n);
          if record.Some? && record.value.canonical {
            out := out + [record.value];
          }
          CollectedNext(table, true, playerIds, first, n, i);
        }
        CollectedNext(table, true, playerIds, first, n, |playerIds|);
      }
    }

    method PredictedRecordCount() returns (n: nat)
      requires Valid()
      ensures n == |PredictedKeys(table)|
    {
      n := 0;
      ghost var seen: set<Key> := {};
      for i := 0 to |records|
        invariant |seen| == n
        invariant forall k :: k in seen ==> k in table && table[k].predicted && table[k] in records[..i]
        invariant forall j :: 0 <= j < i && records[j].predicted ==> records[j].KeyOf() in seen
      {
        if records[i].predicted {
          n := n + 1;
          seen := seen + {records[i].KeyOf()};
        }
      }
      assert seen == PredictedKeys(table);
    }

    method ClearBefore(frame: nat)
      requires Valid()
      modifies this
      ensures Valid() && table == KeptFrom(old(table), frame)
    {
      var kept: seq<Record> := [];
      for i := 0 to |records|
        invariant records == old(records) && table == old(table) && Valid()
        invariant forall r :: r in kept ==> r in records[..i] && r.frame >= frame
        invariant forall j :: 0 <= j < i && records[j].frame >= frame ==> records[j] in kept
        invariant forall a, b :: 0 <= a < b < |kept| ==> kept[a].KeyOf() != kept[b].KeyOf()
      {
        if records[i].frame >= frame {
          kept := kept + [records[i]];
        }
      }
      records := kept;
      table := KeptFrom(table, frame);
    }
  }
}
