/**
 The predict / snapshot / roll back / replay loop of the rollback latency harness, for any
 script, any list of late, reordered or duplicated deliveries and any tick function.
 */
module Rollback {
  import opened Options
  import opened InputFrames
  import opened InputBuffer
  import opened Simulation
  import opened Snapshots

  datatype Delivery = Delivery(dueTick: nat, inputFrame: nat)

  // ----- what the recorded inputs say -----

  function Recorded(table: Table): nat -> Inputs {
    (f: nat) => Inputs(InputOf(table, 1, f), InputOf(table, 2, f))
  }

  predicate Present(table: Table, frame: nat) {
    Key(1, frame) in table && Key(2, frame) in table
  }

  /**
   The invariant of the loop: up to the pending rollback frame every snapshot is the fold
   of the inputs recorded now, and with nothing pending so is the current state.
   */
  ghost predicate Consistent<S>(
    tick: (S, Inputs) -> S, init: S, table: Table, snapshots: seq<Snapshot<S>>,
    pending: Option<nat>, next: nat, state: S)
  {
    && Keyed(table)
    && (forall f :: 0 <= f < next ==> Present(table, f))
    && (pending.Some? ==> pending.value < next)
    && (forall f :: 0 <= f < next ==> FindSnapshot(snapshots, f).Some?)
    && (forall f :: 0 <= f < next && (pending.Some? ==> f <= pending.value) ==>
          FindSnapshot(snapshots, f) == Some(Run(tick, init, Recorded(table), f)))
    && (pending.None? ==> state == Run(tick, init, Recorded(table), next))
  }

  /** Any store keeps the invariant once its mismatch has been turned into a request. */
  lemma StoreKeepsConsistent<S>(
    tick: (S, Inputs) -> S, init: S, table: Table, snapshots: seq<Snapshot<S>>,
    pending: Option<nat>, next: nat, state: S, record: Record)
    requires Consistent(tick, init, table, snapshots, pending, next, state)
    ensures Consistent(tick, init, Stored(table, record), snapshots,
                       Request(pending, Outcome(table, record).mismatchFrame, next), next, state)
  {
    var after := Stored(table, record);
    var mismatch := Outcome(table, record).mismatchFrame;
    var requested := Request(pending, mismatch, next);
    MismatchIsAChangedInput(table, record);
    forall f: nat | f < next
      ensures Present(after, f)
      ensures mismatch != Some(f) ==> Recorded(after)(f) == Recorded(table)(f)
    {
      assert Present(table, f);
    }
    forall f: nat | f <= next && (requested.Some? ==> f <= requested.value)
      ensures Run(tick, init, Recorded(after), f) == Run(tick, init, Recorded(table), f)
    {
      RunDependsOnPrefix(tick, init, Recorded(after), Recorded(table), f);
    }
  }

  /** Saving the snapshot and stepping the next frame keeps the invariant. */
  lemma StepKeepsConsistent<S>(
    tick: (S, Inputs) -> S, init: S, table: Table, snapshots: seq<Snapshot<S>>, next: nat, state: S)
    requires Consistent(tick, init, table, snapshots, None, next, state) && Present(table, next)
    ensures Consistent(tick, init, table, WithSnapshot(snapshots, next, state), None, next + 1,
                       tick(state, Recorded(table)(next)))
  {
    forall g: nat
      ensures FindSnapshot(WithSnapshot(snapshots, next, state), g) ==
              if g == next then Some(state) else FindSnapshot(snapshots, g)
    {
      FindSaved(snapshots, next, state, g);
    }
  }

  // ----- where the records come from -----

  // Only player 2 is predicted; everything else is the script's own input.
  ghost predicate Honest(table: Table, script: Script) {
    forall k :: k in table ==>
      && !table[k].canonical && !table[k].arbitratedMissing
      && (table[k].predicted ==> k.playerId == 2)
      && (!table[k].predicted ==> table[k].input == ScriptInput(script, k.playerId, k.frame))
  }

  predicate Settled(table: Table, playerId: nat, frame: nat) {
    Key(playerId, frame) in table && !table[Key(playerId, frame)].predicted
  }

  ghost predicate PredictedBefore(table: Table, bound: nat) {
    forall k :: k in PredictedKeys(table) ==> k.frame < bound
  }

  function Actual(script: Script, playerId: nat, frame: nat): Record {
    Record(playerId, frame, 0, ScriptInput(script, playerId, frame), false, false, false)
  }

  // An actual record settles its key, and a mismatch can only be a prediction's.
  lemma StoreActual(table: Table, script: Script, playerId: nat, frame: nat)
    requires Keyed(table) && Honest(table, script) && playerId != INVALID_PLAYER_ID
    ensures var record := Actual(script, playerId, frame);
            var after := Stored(table, record);
            var outcome := Outcome(table, record);
            && Honest(after, script) && Settled(after, playerId, frame)
            && PredictedKeys(after) == PredictedKeys(table) - {Key(playerId, frame)}
            && (outcome.replacedPrediction <==> Key(playerId, frame) in PredictedKeys(table))
            && (outcome.replacedPrediction ==> playerId == 2)
            && (outcome.mismatchFrame.Some? ==> outcome.replacedPrediction && outcome.mismatchFrame.value == frame)
            && (forall p: nat, f: nat :: Settled(table, p, f) ==> Settled(after, p, f))
  {
  }

  // A prediction goes in beside what is there.
  lemma StorePrediction(table: Table, script: Script, frame: nat, guess: InputFrame)
    requires Keyed(table) && Honest(table, script) && Key(2, frame) !in table
    ensures var after := table[Key(2, frame) := Record(2, frame, 0, guess, true, false, false)];
            && Stored(table, Record(2, frame, 0, guess, true, false, false)) == after && Honest(after, script)
            && PredictedKeys(after) == PredictedKeys(table) + {Key(2, frame)} && Key(2, frame) !in PredictedKeys(table)
  {
  }

  /** Once every frame is settled for both players, the fold of the records is the truth. */
  lemma SettledRunIsTruth<S>(tick: (S, Inputs) -> S, init: S, table: Table, script: Script, n: nat)
    requires Keyed(table) && Honest(table, script)
    requires forall f :: 0 <= f < n ==> Settled(table, 1, f) && Settled(table, 2, f)
    ensures Run(tick, init, Recorded(table), n) == Truth(tick, init, script, n)
  {
    forall f: nat | f < n
      ensures Recorded(table)(f) == Scripted(script)(f)
    {
      assert Settled(table, 1, f) && Settled(table, 2, f);
    }
    RunDependsOnPrefix(tick, init, Recorded(table), Scripted(script), n);
  }

  ghost predicate Delivers(deliveries: seq<Delivery>, frame: nat) {
    exists d :: 0 <= d < |deliveries| && deliveries[d].inputFrame == frame
  }

  // ----- one harness run, as a value -----

  datatype Harness<S> = Harness(
    table: Table, snapshots: seq<Snapshot<S>>, pending: Option<nat>, next: nat, state: S,
    rollbacks: nat, misses: nat, lateMatches: nat,
    // bookkeeping: predictions made so far, and the frames whose actual input is in the buffer
    made: nat, local: set<nat>, remote: set<nat>)

  ghost predicate Sound<S>(tick: (S, Inputs) -> S, init: S, script: Script, h: Harness<S>) {
    && Consistent(tick, init, h.table, h.snapshots, h.pending, h.next, h.state)
    && Honest(h.table, script)
    && Accounted(h)
    && (forall f :: f in h.local ==> Settled(h.table, 1, f))
    && (forall f :: f in h.remote ==> Settled(h.table, 2, f))
  }

  // Every prediction made is still pending, or was resolved as a miss or as a late match.
  ghost predicate Accounted<S>(h: Harness<S>) {
    && |PredictedKeys(h.table)| + h.misses + h.lateMatches == h.made
    && h.rollbacks + (if h.pending.Some? then 1 else 0) <= h.misses
  }

  // Between steps, predictions sit at stepped frames only, and a miss has been or will be repaired.
  ghost predicate Steady<S>(tick: (S, Inputs) -> S, init: S, script: Script, h: Harness<S>) {
    && Sound(tick, init, script, h)
    && PredictedBefore(h.table, h.next)
    && (h.misses > 0 ==> h.rollbacks > 0 || h.pending.Some?)
  }

  function Start<S>(init: S): Harness<S> {
    Harness(map[], [], None, 0, init, 0, 0, 0, 0, {}, {})
  }

  function LocalStored<S>(script: Script, h: Harness<S>, frame: nat): Harness<S> {
    h.(table := Stored(h.table, Actual(script, 1, frame)), local := h.local + {frame})
  }

  function Delivered<S>(script: Script, h: Harness<S>, frame: nat): Harness<S> {
    var outcome := Outcome(h.table, Actual(script, 2, frame));
    h.(table := Stored(h.table, Actual(script, 2, frame)),
       pending := Request(h.pending, outcome.mismatchFrame, h.next),
       misses := h.misses + if outcome.replacedPrediction && outcome.mismatchFrame.Some? then 1 else 0,
       lateMatches := h.lateMatches + if outcome.replacedPrediction && outcome.mismatchFrame.None? then 1 else 0,
       remote := h.remote + {frame})
  }

  function PredictionAdded<S>(h: Harness<S>, frame: nat, guess: InputFrame): Harness<S> {
    h.(table := h.table[Key(2, frame) := Record(2, frame, 0, guess, true, false, false)], made := h.made + 1)
  }

  function Restored<S>(h: Harness<S>): Harness<S>
    requires h.pending.Some? && FindSnapshot(h.snapshots, h.pending.value).Some?
  {
    h.(state := FindSnapshot(h.snapshots, h.pending.value).value, next := h.pending.value,
       pending := None, rollbacks := h.rollbacks + 1)
  }

  function Stepped<S>(tick: (S, Inputs) -> S, h: Harness<S>): Harness<S> {
    h.(snapshots := WithSnapshot(h.snapshots, h.next, h.state),
       state := tick(h.state, Recorded(h.table)(h.next)), next := h.next + 1)
  }

  lemma StartSteady<S>(tick: (S, Inputs) -> S, init: S, script: Script)
    ensures Steady(tick, init, script, Start(init))
  {
  }

  lemma OnlyRemotePredicted(table: Table, script: Script, frame: nat)
    requires Honest(table, script)
    ensures Key(1, frame) !in PredictedKeys(table)
  {
  }

  lemma LocalKeeps<S>(tick: (S, Inputs) -> S, init: S, script: Script, h: Harness<S>, frame: nat)
    requires Steady(tick, init, script, h)
    ensures Steady(tick, init, script, LocalStored(script, h, frame))
  {
    hide Honest, Stored, Outcome, Settled, PredictedKeys, Actual, FindSnapshot, Run;
    assert Keyed(h.table);
    hide Consistent, Keyed;
    StoreActual(h.table, script, 1, frame);
    assert PredictedKeys(Stored(h.table, Actual(script, 1, frame))) == PredictedKeys(h.table) by {
      OnlyRemotePredicted(h.table, script, frame);
    }
    StoreKeepsConsistent(tick, init, h.table, h.snapshots, h.pending, h.next, h.state, Actual(script, 1, frame));
  }

  // A delivery resolves at most one prediction: its own.
  lemma DeliveryAccounts<S>(script: Script, h: Harness<S>, frame: nat)
    requires Accounted(h) && Keyed(h.table) && Honest(h.table, script) && PredictedBefore(h.table, h.next)
    requires h.misses > 0 ==> h.rollbacks > 0 || h.pending.Some?
    ensures var after := Delivered(script, h, frame);
            && Accounted(after) && PredictedBefore(after.table, h.next)
            && (after.misses > 0 ==> after.rollbacks > 0 || after.pending.Some?)
  {
    hide Honest, Keyed, Stored, Outcome, PredictedKeys, Actual;
    StoreActual(h.table, script, 2, frame);
  }

  /** A delivery keeps the invariant: a miss at a stepped frame leaves a rollback pending. */
  lemma DeliveryKeeps<S>(tick: (S, Inputs) -> S, init: S, script: Script, h: Harness<S>, frame: nat)
    requires Steady(tick, init, script, h)
    ensures Steady(tick, init, script, Delivered(script, h, frame))
  {
    hide Honest, Accounted, PredictedBefore, Stored, Outcome, Settled, Actual, FindSnapshot, Run;
    assert Keyed(h.table);
    hide Consistent, Keyed;
    StoreActual(h.table, script, 2, frame);
    StoreKeepsConsistent(tick, init, h.table, h.snapshots, h.pending, h.next, h.state, Actual(script, 2, frame));
    DeliveryAccounts(script, h, frame);
  }

  lemma PredictionKeeps<S>(
    tick: (S, Inputs) -> S, init: S, script: Script, h: Harness<S>, frame: nat, guess: InputFrame)
    requires Sound(tick, init, script, h) && Key(2, frame) !in h.table
    ensures Sound(tick, init, script, PredictionAdded(h, frame, guess))
  {
    var predicted := Record(2, frame, 0, guess, true, false, false);
    StorePrediction(h.table, script, frame, guess);
    hide Consistent, Honest, PredictedKeys;
    StoreKeepsConsistent(tick, init, h.table, h.snapshots, h.pending, h.next, h.state, predicted);
  }

  /** The snapshot a rollback asks for is always there, and is the fold of the inputs before it. */
  lemma RestoreKeeps<S>(tick: (S, Inputs) -> S, init: S, script: Script, h: Harness<S>)
    requires Sound(tick, init, script, h) && h.pending.Some?
    ensures FindSnapshot(h.snapshots, h.pending.value).Some?
    ensures Sound(tick, init, script, Restored(h))
  {
  }

  lemma StepKeeps<S>(tick: (S, Inputs) -> S, init: S, script: Script, h: Harness<S>)
    requires Sound(tick, init, script, h) && h.pending.None? && Present(h.table, h.next)
    ensures Sound(tick, init, script, Stepped(tick, h))
  {
    StepKeepsConsistent(tick, init, h.table, h.snapshots, h.next, h.state);
  }

  /** At rest with every frame settled, nothing is predicted and the state is the truth. */
  lemma SettledIsTruth<S>(tick: (S, Inputs) -> S, init: S, script: Script, h: Harness<S>)
    requires Steady(tick, init, script, h) && h.pending.None?
    requires forall f :: 0 <= f < h.next ==> f in h.local && f in h.remote
    ensures PredictedKeys(h.table) == {} && h.misses + h.lateMatches == h.made
    ensures h.rollbacks <= h.misses && (h.rollbacks == 0 <==> h.misses == 0)
    ensures h.state == Truth(tick, init, script, h.next)
  {
    assert forall k :: k in PredictedKeys(h.table) ==> Settled(h.table, 2, k.frame);
    SettledRunIsTruth(tick, init, h.table, script, h.next);
  }

  // ----- what the player sees, and when it is guessed -----

  // By this tick: deliveries are taken in list order, each when all before it are due as well.
  ghost predicate Due(deliveries: seq<Delivery>, d: nat, wallTick: nat) {
    d < |deliveries| && forall e :: 0 <= e <= d ==> deliveries[e].dueTick <= wallTick
  }

  ghost predicate Brought(deliveries: seq<Delivery>, frame: nat, wallTick: nat) {
    exists d: nat :: Due(deliveries, d, wallTick) && deliveries[d].inputFrame == frame
  }

  // Player 2's last input below frame g that was brought by the tick.
  ghost function LastBrought(script: Script, deliveries: seq<Delivery>, wallTick: nat, g: nat): InputFrame {
    if g == 0 then NEUTRAL
    else if Brought(deliveries, g - 1, wallTick) then ScriptInput(script, 2, g - 1)
    else LastBrought(script, deliveries, wallTick, g - 1)
  }

  // A frame is stepped in its own tick; what was not brought by then is guessed.
  ghost predicate Guessed(deliveries: seq<Delivery>, frame: nat) { !Brought(deliveries, frame, frame) }

  ghost function Guess(script: Script, deliveries: seq<Delivery>, frame: nat): InputFrame {
    LastBrought(script, deliveries, frame, frame)
  }

  /** A guess repeats the last input of player 2 that was brought by the frame's tick, or is neutral. */
  lemma GuessRepeats(script: Script, deliveries: seq<Delivery>, frame: nat, latest: Option<nat>)
    requires latest.Some? ==> latest.value < frame && Brought(deliveries, latest.value, frame)
    requires forall g: nat :: (latest.None? || g > latest.value) && g < frame ==> !Brought(deliveries, g, frame)
    ensures Guess(script, deliveries, frame) ==
            if latest.Some? then ScriptInput(script, 2, latest.value) else NEUTRAL
  {
    hide Brought;
    LastBroughtIs(script, deliveries, frame, frame, latest);
  }

  lemma {:induction false} LastBroughtIs(
    script: Script, deliveries: seq<Delivery>, wallTick: nat, n: nat, latest: Option<nat>)
    requires latest.Some? ==> latest.value < n && Brought(deliveries, latest.value, wallTick)
    requires forall g: nat :: (latest.None? || g > latest.value) && g < n ==> !Brought(deliveries, g, wallTick)
    ensures LastBrought(script, deliveries, wallTick, n) ==
            if latest.Some? then ScriptInput(script, 2, latest.value) else NEUTRAL
  {
    hide Brought;
    if n > 0 && latest != Some(n - 1) { LastBroughtIs(script, deliveries, wallTick, n - 1, latest); }
  }

  ghost predicate Wrong(script: Script, deliveries: seq<Delivery>, frame: nat) {
    Guessed(deliveries, frame) && Guess(script, deliveries, frame) != ScriptInput(script, 2, frame)
  }

  ghost function GuessedBelow(deliveries: seq<Delivery>, n: nat): set<nat> {
    set f: nat | f < n && Guessed(deliveries, f)
  }

  ghost function WrongBelow(script: Script, deliveries: seq<Delivery>, n: nat): set<nat> {
    set f: nat | f < n && Wrong(script, deliveries, f)
  }

  // The inputs the game is seen to have had, at the end of a tick.
  ghost function Seen(script: Script, deliveries: seq<Delivery>, wallTick: nat): nat -> Inputs {
    (f: nat) => Inputs(
      ScriptInput(script, 1, f),
      if Brought(deliveries, f, wallTick) then ScriptInput(script, 2, f) else Guess(script, deliveries, f))
  }

  // A frame that was guessed wrong is brought in this tick.
  ghost predicate RollsBack(script: Script, deliveries: seq<Delivery>, frames: nat, wallTick: nat) {
    exists f: nat :: f < wallTick && f < frames && Wrong(script, deliveries, f) &&
                     Brought(deliveries, f, wallTick) && !Brought(deliveries, f, wallTick - 1)
  }

  ghost function RollTicks(script: Script, deliveries: seq<Delivery>, frames: nat, wallTicks: nat): set<nat> {
    set t: nat | t < wallTicks && RollsBack(script, deliveries, frames, t)
  }

  // The frames of the first n deliveries.
  ghost function Taken(deliveries: seq<Delivery>, n: nat): (frames: set<nat>)
    requires n <= |deliveries|
    ensures forall f: nat :: f in frames <==> exists d :: 0 <= d < n && deliveries[d].inputFrame == f
  {
    if n == 0 then {} else Taken(deliveries, n - 1) + {deliveries[n - 1].inputFrame}
  }

  // ----- what the buffer and the counters say of it -----

  ghost predicate Recalls<S>(script: Script, deliveries: seq<Delivery>, h: Harness<S>) {
    && Recorder(h) && Guesses(script, deliveries, h.table, h.remote, h.next) && Tally(script, deliveries, h)
  }

  // There is a record exactly for what was stored, brought or stepped.
  ghost predicate Recorder<S>(h: Harness<S>) {
    && (forall f: nat :: Key(1, f) in h.table <==> f in h.local)
    && (forall f: nat :: Key(2, f) in h.table <==> f in h.remote || f < h.next)
  }

  // What was stepped and not brought yet was guessed, as it had to be.
  ghost predicate Guesses(script: Script, deliveries: seq<Delivery>, table: Table, remote: set<nat>, next: nat) {
    forall f: nat :: f < next && f !in remote ==>
      Guessed(deliveries, f) && Key(2, f) in table && table[Key(2, f)].predicted &&
      table[Key(2, f)].input == Guess(script, deliveries, f)
  }

  ghost predicate Tally<S>(script: Script, deliveries: seq<Delivery>, h: Harness<S>) {
    && h.made == |GuessedBelow(deliveries, h.next)|
    && h.misses == Misses(script, deliveries, h.next, h.remote)
    && h.lateMatches == LateMatches(script, deliveries, h.next, h.remote)
  }

  // The guesses below frame n that turned out wrong so far, and those that turned out right.
  ghost function Misses(script: Script, deliveries: seq<Delivery>, n: nat, remote: set<nat>): nat {
    |WrongBelow(script, deliveries, n) * remote|
  }

  ghost function LateMatches(script: Script, deliveries: seq<Delivery>, n: nat, remote: set<nat>): nat {
    |(GuessedBelow(deliveries, n) - WrongBelow(script, deliveries, n)) * remote|
  }

  lemma StartRecalls<S>(script: Script, deliveries: seq<Delivery>, init: S)
    ensures Recalls(script, deliveries, Start(init))
  {
    assert GuessedBelow(deliveries, 0) == {} && WrongBelow(script, deliveries, 0) == {};
  }

  lemma StoredElse(table: Table, record: Record)
    requires record.playerId != INVALID_PLAYER_ID
    ensures var after := Stored(table, record);
            && record.KeyOf() in after
            && (forall k :: k in table ==> k in after)
            && (forall k :: k in after && k != record.KeyOf() ==> k in table && after[k] == table[k])
  {
  }

  lemma LocalRecalls<S>(script: Script, deliveries: seq<Delivery>, h: Harness<S>, frame: nat)
    requires Recalls(script, deliveries, h)
    ensures Recalls(script, deliveries, LocalStored(script, h, frame))
  {
    hide *;
    RecallsIs(script, deliveries, h);
    LocalRecords(script, deliveries, h, frame);
    LocalTallies(script, deliveries, h, frame);
    RecallsIs(script, deliveries, LocalStored(script, h, frame));
  }

  lemma LocalRecords<S>(script: Script, deliveries: seq<Delivery>, h: Harness<S>, frame: nat)
    requires Recorder(h) && Guesses(script, deliveries, h.table, h.remote, h.next)
    ensures var after := LocalStored(script, h, frame);
            Recorder(after) && Guesses(script, deliveries, after.table, after.remote, after.next)
  {
    StoredElse(h.table, Actual(script, 1, frame));
    assert Actual(script, 1, frame).KeyOf() == Key(1, frame);
    hide Stored, Actual, Guessed, Guess;
  }

  lemma LocalTallies<S>(script: Script, deliveries: seq<Delivery>, h: Harness<S>, frame: nat)
    requires Tally(script, deliveries, h)
    ensures Tally(script, deliveries, LocalStored(script, h, frame))
  {
    hide Stored, Actual, GuessedBelow, WrongBelow;
  }

  // A delivery decides a guess exactly if its frame was stepped and is brought for the first time.
  lemma DeliveryRecalls<S>(script: Script, deliveries: seq<Delivery>, h: Harness<S>, frame: nat)
    requires Recalls(script, deliveries, h) && Honest(h.table, script) && Keyed(h.table)
    requires forall f :: f in h.remote ==> Settled(h.table, 2, f)
    ensures var after := Delivered(script, h, frame);
            && Recalls(script, deliveries, after)
            && (after.pending.Some? <==>
                h.pending.Some? || (frame !in h.remote && frame < h.next && Wrong(script, deliveries, frame)))
  {
    hide *;
    RecallsIs(script, deliveries, h);
    DeliveryRecords(script, deliveries, h, frame);
    Resolves(script, deliveries, h, frame);
    DeliveryTallies(script, deliveries, h, frame);
    RecallsIs(script, deliveries, Delivered(script, h, frame));
  }

  lemma RecallsIs<S>(script: Script, deliveries: seq<Delivery>, h: Harness<S>)
    ensures Recalls(script, deliveries, h) <==>
            Recorder(h) && Guesses(script, deliveries, h.table, h.remote, h.next) && Tally(script, deliveries, h)
  {
    hide Recorder, Guesses, Tally;
  }

  lemma DeliveryRecords<S>(script: Script, deliveries: seq<Delivery>, h: Harness<S>, frame: nat)
    requires Recorder(h) && Guesses(script, deliveries, h.table, h.remote, h.next)
    ensures var after := Delivered(script, h, frame);
            Recorder(after) && Guesses(script, deliveries, after.table, after.remote, after.next)
  {
    StoredElse(h.table, Actual(script, 2, frame));
    assert Actual(script, 2, frame).KeyOf() == Key(2, frame);
    hide Stored, Actual, Outcome, Guessed, Guess;
  }

  // What becomes of the guess.
  lemma Resolves<S>(script: Script, deliveries: seq<Delivery>, h: Harness<S>, frame: nat)
    requires Recorder(h) && Guesses(script, deliveries, h.table, h.remote, h.next)
    requires Honest(h.table, script) && Keyed(h.table) && forall f :: f in h.remote ==> Settled(h.table, 2, f)
    ensures var after, first := Delivered(script, h, frame), frame !in h.remote && frame < h.next;
            && after.next == h.next && after.made == h.made && after.remote == h.remote + {frame}
            && after.misses == h.misses + (if first && Wrong(script, deliveries, frame) then 1 else 0)
            && after.lateMatches == h.lateMatches + (if first && !Wrong(script, deliveries, frame) then 1 else 0)
            && (after.pending.Some? <==> h.pending.Some? || (first && Wrong(script, deliveries, frame)))
    ensures frame !in h.remote && frame < h.next ==> Guessed(deliveries, frame)
  {
    hide Guessed, Guess;
    if frame in h.remote { assert Settled(h.table, 2, frame); }
  }

  lemma DeliveryTallies<S>(script: Script, deliveries: seq<Delivery>, h: Harness<S>, frame: nat)
    requires Tally(script, deliveries, h)
    requires var after, first := Delivered(script, h, frame), frame !in h.remote && frame < h.next;
             && after.next == h.next && after.made == h.made && after.remote == h.remote + {frame}
             && after.misses == h.misses + (if first && Wrong(script, deliveries, frame) then 1 else 0)
             && after.lateMatches == h.lateMatches + (if first && !Wrong(script, deliveries, frame) then 1 else 0)
    requires frame !in h.remote && frame < h.next ==> Guessed(deliveries, frame)
    ensures Tally(script, deliveries, Delivered(script, h, frame))
  {
    var guessed, wrong := GuessedBelow(deliveries, h.next), WrongBelow(script, deliveries, h.next);
    assert frame in guessed <==> frame < h.next && Guessed(deliveries, frame);
    assert frame in wrong <==> frame < h.next && Wrong(script, deliveries, frame);
    assert Wrong(script, deliveries, frame) ==> Guessed(deliveries, frame);
    hide *;
    OneMore(wrong, h.remote, frame);
    OneMore(guessed - wrong, h.remote, frame);
    var after := Delivered(script, h, frame);
    TallyIs(script, deliveries, h);
    TallyIs(script, deliveries, after);
    TalliesAre(script, deliveries, h.next, h.remote);
    TalliesAre(script, deliveries, h.next, after.remote);
  }

  lemma TalliesAre(script: Script, deliveries: seq<Delivery>, n: nat, remote: set<nat>)
    ensures Misses(script, deliveries, n, remote) == |WrongBelow(script, deliveries, n) * remote|
    ensures LateMatches(script, deliveries, n, remote) ==
            |(GuessedBelow(deliveries, n) - WrongBelow(script, deliveries, n)) * remote|
  {
    hide GuessedBelow, WrongBelow;
  }

  lemma OneMore(frames: set<nat>, remote: set<nat>, frame: nat)
    ensures |frames * (remote + {frame})| ==
            |frames * remote| + if frame in frames && frame !in remote then 1 else 0
  {
    if frame in frames && frame !in remote {
      assert frames * (remote + {frame}) == frames * remote + {frame};
    } else {
      assert frames * (remote + {frame}) == frames * remote;
    }
  }

  // ----- the step of a tick -----

  lemma LatestSettled(table: Table, frame: nat, g: nat)
    requires Keyed(table) && g < frame && Settled(table, 2, g)
    requires forall f: nat :: g < f < frame ==> !Settled(table, 2, f)
    ensures LatestActual(table, 2, frame, g)
    ensures forall f :: LatestActual(table, 2, frame, f) ==> f == g
  {
    forall k | k in table && k.playerId == 2 && k.frame < frame && !table[k].predicted ensures k.frame <= g {
      assert k == Key(2, k.frame) && Settled(table, 2, k.frame);
    }
  }

  // Player 2's last actual input is the last that was brought.
  lemma {:induction false} RepeatsBrought(
    script: Script, deliveries: seq<Delivery>, table: Table, remote: set<nat>, wallTick: nat, frame: nat, g: nat,
    input: InputFrame)
    requires Honest(table, script) && Keyed(table) && g <= frame
    requires forall f: nat :: Settled(table, 2, f) <==> f in remote
    requires forall f: nat :: f in remote <==> Brought(deliveries, f, wallTick)
    requires Repeats(table, 2, frame, input) && forall f: nat :: g <= f < frame ==> !Settled(table, 2, f)
    ensures input == LastBrought(script, deliveries, wallTick, g)
  {
    hide Brought;
    if g == 0 {
      forall f ensures !LatestActual(table, 2, frame, f) {
        assert LatestActual(table, 2, frame, f) ==> Settled(table, 2, f);
      }
    } else if Brought(deliveries, g - 1, wallTick) {
      assert Settled(table, 2, g - 1);
      LatestSettled(table, frame, g - 1);
    } else {
      hide Honest, Repeats, Settled;
      RepeatsBrought(script, deliveries, table, remote, wallTick, frame, g - 1, input);
    }
  }

  // The next frame is guessed if it has not been brought, and then stepped.
  function GuessedStep<S>(tick: (S, Inputs) -> S, h: Harness<S>, guess: InputFrame): Harness<S> {
    Stepped(tick, if Key(2, h.next) in h.table then h else PredictionAdded(h, h.next, guess))
  }

  lemma StepRecalls<S>(
    tick: (S, Inputs) -> S, script: Script, deliveries: seq<Delivery>, h: Harness<S>, guess: InputFrame)
    requires Recalls(script, deliveries, h)
    requires h.next in h.remote <==> !Guessed(deliveries, h.next)
    requires h.next !in h.remote ==> guess == Guess(script, deliveries, h.next)
    ensures Recalls(script, deliveries, GuessedStep(tick, h, guess))
  {
    hide *;
    RecallsIs(script, deliveries, h);
    StepRecords(tick, script, deliveries, h, guess);
    StepTallies(tick, script, deliveries, h, guess);
    RecallsIs(script, deliveries, GuessedStep(tick, h, guess));
  }

  lemma StepRecords<S>(
    tick: (S, Inputs) -> S, script: Script, deliveries: seq<Delivery>, h: Harness<S>, guess: InputFrame)
    requires Recorder(h) && Guesses(script, deliveries, h.table, h.remote, h.next)
    requires h.next in h.remote <==> !Guessed(deliveries, h.next)
    requires h.next !in h.remote ==> guess == Guess(script, deliveries, h.next)
    ensures var after := GuessedStep(tick, h, guess);
            Recorder(after) && Guesses(script, deliveries, after.table, after.remote, after.next)
  {
    hide Guessed, Guess, WithSnapshot, Recorded;
  }

  lemma StepTallies<S>(
    tick: (S, Inputs) -> S, script: Script, deliveries: seq<Delivery>, h: Harness<S>, guess: InputFrame)
    requires Recorder(h) && Tally(script, deliveries, h)
    requires h.next in h.remote <==> !Guessed(deliveries, h.next)
    ensures Tally(script, deliveries, GuessedStep(tick, h, guess))
  {
    hide *;
    TallyIs(script, deliveries, h);
    GuessedStepIs(tick, h, guess);
    GuessedNext(script, deliveries, h.next, h.remote);
    TallyIs(script, deliveries, GuessedStep(tick, h, guess));
  }

  lemma TallyIs<S>(script: Script, deliveries: seq<Delivery>, h: Harness<S>)
    ensures Tally(script, deliveries, h) <==>
            && h.made == |GuessedBelow(deliveries, h.next)|
            && h.misses == Misses(script, deliveries, h.next, h.remote)
            && h.lateMatches == LateMatches(script, deliveries, h.next, h.remote)
  {
    hide GuessedBelow, Misses, LateMatches;
  }

  lemma GuessedStepIs<S>(tick: (S, Inputs) -> S, h: Harness<S>, guess: InputFrame)
    requires Recorder(h)
    ensures var after := GuessedStep(tick, h, guess);
            && after.next == h.next + 1 && after.remote == h.remote && after.local == h.local
            && after.made == h.made + (if h.next in h.remote then 0 else 1)
            && after.misses == h.misses && after.lateMatches == h.lateMatches && after.rollbacks == h.rollbacks
  {
    hide WithSnapshot, Recorded;
    assert Key(2, h.next) in h.table <==> h.next in h.remote;
  }

  lemma GuessedNext(script: Script, deliveries: seq<Delivery>, n: nat, remote: set<nat>)
    requires n in remote <==> !Guessed(deliveries, n)
    ensures |GuessedBelow(deliveries, n + 1)| == |GuessedBelow(deliveries, n)| + if n in remote then 0 else 1
    ensures Misses(script, deliveries, n + 1, remote) == Misses(script, deliveries, n, remote)
    ensures LateMatches(script, deliveries, n + 1, remote) == LateMatches(script, deliveries, n, remote)
  {
    hide Guess;
    assert WrongBelow(script, deliveries, n + 1) * remote == WrongBelow(script, deliveries, n) * remote;
    assert (GuessedBelow(deliveries, n + 1) - WrongBelow(script, deliveries, n + 1)) * remote ==
           (GuessedBelow(deliveries, n) - WrongBelow(script, deliveries, n)) * remote;
    var guessed := GuessedBelow(deliveries, n);
    assert GuessedBelow(deliveries, n + 1) == if n in remote then guessed else guessed + {n};
    assert n !in guessed;
  }

  // ----- a tick -----

  function Least(a: nat, b: nat): nat { if a < b then a else b }

  // A frame that was guessed wrong has been brought since then.
  ghost predicate MissedSince(
    script: Script, deliveries: seq<Delivery>, before: set<nat>, remote: set<nat>, next: nat)
  {
    exists f: nat :: f < next && f in remote && f !in before && Wrong(script, deliveries, f)
  }

  // What is due is taken.
  ghost predicate TakenBy(deliveries: seq<Delivery>, nextDelivery: nat, wallTicks: nat) {
    && nextDelivery <= |deliveries| && (forall d :: 0 <= d < nextDelivery ==> deliveries[d].dueTick < wallTicks)
    && (nextDelivery < |deliveries| ==> deliveries[nextDelivery].dueTick >= wallTicks)
  }

  lemma TakenIsBrought(deliveries: seq<Delivery>, nextDelivery: nat, wallTick: nat, f: nat)
    requires TakenBy(deliveries, nextDelivery, wallTick + 1)
    ensures f in Taken(deliveries, nextDelivery) <==> Brought(deliveries, f, wallTick)
  {
    if f in Taken(deliveries, nextDelivery) {
      var d: nat :| d < nextDelivery && deliveries[d].inputFrame == f;
      assert Due(deliveries, d, wallTick);
    }
    if Brought(deliveries, f, wallTick) {
      var d: nat :| Due(deliveries, d, wallTick) && deliveries[d].inputFrame == f;
      assert d < nextDelivery;
    }
  }

  /** Where the harness is after a number of ticks. */
  ghost predicate Progress<S>(
    script: Script, deliveries: seq<Delivery>, frames: nat, wallTicks: nat, h: Harness<S>, nextDelivery: nat)
  {
    && Recalls(script, deliveries, h) && h.next == Least(wallTicks, frames)
    && TakenBy(deliveries, nextDelivery, wallTicks) && h.remote == Taken(deliveries, nextDelivery)
    && (forall f: nat :: f in h.local <==> f < h.next)
    && h.rollbacks == |RollTicks(script, deliveries, frames, wallTicks)|
  }

  lemma StartProgress<S>(script: Script, deliveries: seq<Delivery>, frames: nat, init: S)
    ensures Progress(script, deliveries, frames, 0, Start(init), 0)
  {
    StartRecalls(script, deliveries, init);
    assert RollTicks(script, deliveries, frames, 0) == {};
    hide Recalls;
  }

  // This tick rolls back exactly if it brings a frame that was guessed wrong.
  lemma RollsBackNow(
    script: Script, deliveries: seq<Delivery>, frames: nat, wallTick: nat, before: nat, after: nat)
    requires TakenBy(deliveries, before, wallTick) && TakenBy(deliveries, after, wallTick + 1)
    ensures MissedSince(
              script, deliveries, Taken(deliveries, before), Taken(deliveries, after), Least(wallTick, frames)) <==>
            RollsBack(script, deliveries, frames, wallTick)
  {
    forall f: nat | wallTick > 0
      ensures f in Taken(deliveries, before) <==> Brought(deliveries, f, wallTick - 1)
      ensures f in Taken(deliveries, after) <==> Brought(deliveries, f, wallTick)
    {
      hide *;
      assert TakenBy(deliveries, before, wallTick - 1 + 1);
      TakenIsBrought(deliveries, before, wallTick - 1, f);
      TakenIsBrought(deliveries, after, wallTick, f);
    }
    hide TakenBy, Wrong, Brought, Taken;
  }

  lemma MoreRolls(script: Script, deliveries: seq<Delivery>, frames: nat, wallTick: nat)
    ensures |RollTicks(script, deliveries, frames, wallTick + 1)| ==
            |RollTicks(script, deliveries, frames, wallTick)| +
            if RollsBack(script, deliveries, frames, wallTick) then 1 else 0
  {
    hide RollsBack;
    var ticks := RollTicks(script, deliveries, frames, wallTick);
    assert RollTicks(script, deliveries, frames, wallTick + 1) ==
           if RollsBack(script, deliveries, frames, wallTick) then ticks + {wallTick} else ticks;
  }

  // The recorded inputs are what is seen.
  lemma RecordedIsSeen<S>(
    tick: (S, Inputs) -> S, init: S, script: Script, deliveries: seq<Delivery>, wallTick: nat, nextDelivery: nat,
    h: Harness<S>)
    requires Recorder(h) && Guesses(script, deliveries, h.table, h.remote, h.next) && Honest(h.table, script)
    requires TakenBy(deliveries, nextDelivery, wallTick + 1) && h.remote == Taken(deliveries, nextDelivery)
    requires forall f: nat :: f < h.next ==> f in h.local
    requires forall f :: f in h.remote ==> Settled(h.table, 2, f)
    ensures Run(tick, init, Recorded(h.table), h.next) == Run(tick, init, Seen(script, deliveries, wallTick), h.next)
  {
    forall f: nat | f < h.next ensures Recorded(h.table)(f) == Seen(script, deliveries, wallTick)(f) {
      TakenIsBrought(deliveries, nextDelivery, wallTick, f);
      assert Key(1, f) in h.table && Key(2, f) in h.table;
    }
    RunDependsOnPrefix(tick, init, Recorded(h.table), Seen(script, deliveries, wallTick), h.next);
  }

  // ----- the pieces of a tick -----

  // A tick before its new frame is stepped.
  ghost predicate CaughtUp<S>(
    script: Script, deliveries: seq<Delivery>, frames: nat, wallTick: nat, h: Harness<S>, nextDelivery: nat)
  {
    && Recalls(script, deliveries, h) && h.next == Least(wallTick, frames)
    && TakenBy(deliveries, nextDelivery, wallTick + 1) && h.remote == Taken(deliveries, nextDelivery)
    && (forall f: nat :: f in h.local <==> f < Least(wallTick + 1, frames))
    && h.rollbacks == |RollTicks(script, deliveries, frames, wallTick + 1)|
  }

  lemma MakesProgress<S>(
    script: Script, deliveries: seq<Delivery>, frames: nat, wallTick: nat, h: Harness<S>, nextDelivery: nat)
    requires Recalls(script, deliveries, h) && h.next == Least(wallTick + 1, frames)
    requires TakenBy(deliveries, nextDelivery, wallTick + 1) && h.remote == Taken(deliveries, nextDelivery)
    requires forall f: nat :: f in h.local <==> f < h.next
    requires h.rollbacks == |RollTicks(script, deliveries, frames, wallTick + 1)|
    ensures Progress(script, deliveries, frames, wallTick + 1, h, nextDelivery)
  {
    hide Recalls, TakenBy, Taken, RollTicks;
  }

  lemma LocalThere<S>(script: Script, deliveries: seq<Delivery>, h: Harness<S>, f: nat)
    requires Recalls(script, deliveries, h) && f in h.local
    ensures Key(1, f) in h.table
  {
    hide Guesses, Tally;
  }

  lemma MissedNever(script: Script, deliveries: seq<Delivery>, remote: set<nat>, next: nat)
    ensures !MissedSince(script, deliveries, remote, remote, next)
  {
  }

  lemma SteadyIs<S>(tick: (S, Inputs) -> S, init: S, script: Script, h: Harness<S>)
    requires Steady(tick, init, script, h)
    ensures Honest(h.table, script) && Keyed(h.table) && forall f :: f in h.remote ==> Settled(h.table, 2, f)
    ensures forall f :: f in h.local ==> Settled(h.table, 1, f)
    ensures PredictedBefore(h.table, h.next)
    ensures h.pending.None? ==> h.state == Run(tick, init, Recorded(h.table), h.next)
  {
  }

  lemma LocalIs<S>(script: Script, h: Harness<S>, frame: nat)
    ensures var after := LocalStored(script, h, frame);
            after == h.(table := after.table, local := h.local + {frame})
  {
  }

  lemma MissedNow(
    script: Script, deliveries: seq<Delivery>, before: set<nat>, remote: set<nat>, frame: nat, next: nat)
    requires before <= remote
    ensures MissedSince(script, deliveries, before, remote + {frame}, next) <==>
            MissedSince(script, deliveries, before, remote, next) ||
            (frame !in remote && frame < next && Wrong(script, deliveries, frame))
  {
    hide Wrong;
    if frame !in remote && frame < next && Wrong(script, deliveries, frame) {
      assert frame in remote + {frame};
    }
  }

  lemma ReplayRecalls<S>(script: Script, deliveries: seq<Delivery>, h: Harness<S>, after: Harness<S>)
    requires Recalls(script, deliveries, h)
    requires after.table == h.table && after.next == h.next && after.local == h.local && after.remote == h.remote
    requires after.made == h.made && after.misses == h.misses && after.lateMatches == h.lateMatches
    ensures Recalls(script, deliveries, after)
  {
    hide GuessedBelow, Misses, LateMatches;
  }

  // The settled inputs of player 2 are those that were brought.
  lemma BroughtIsSettled<S>(
    tick: (S, Inputs) -> S, init: S, script: Script, deliveries: seq<Delivery>, h: Harness<S>, wallTick: nat,
    nextDelivery: nat, f: nat)
    requires Steady(tick, init, script, h) && Recalls(script, deliveries, h)
    requires TakenBy(deliveries, nextDelivery, wallTick + 1) && h.remote == Taken(deliveries, nextDelivery)
    ensures f in h.remote <==> Brought(deliveries, f, wallTick)
    ensures f in h.remote <==> Settled(h.table, 2, f)
  {
    SteadyIs(tick, init, script, h);
    TakenIsBrought(deliveries, nextDelivery, wallTick, f);
    hide Steady, Tally, TakenBy, Taken, Brought, Guessed, Guess;
    if f !in h.remote && f < h.next { assert h.table[Key(2, f)].predicted; }
  }

  // What the next frame is stepped on in its own tick.
  lemma StepIsRecalled<S>(
    tick: (S, Inputs) -> S, init: S, script: Script, deliveries: seq<Delivery>, h: Harness<S>, guess: InputFrame,
    nextDelivery: nat)
    requires Steady(tick, init, script, h) && Recalls(script, deliveries, h)
    requires TakenBy(deliveries, nextDelivery, h.next + 1) && h.remote == Taken(deliveries, nextDelivery)
    requires Key(2, h.next) !in h.table ==> Repeats(h.table, 2, h.next, guess)
    ensures Recalls(script, deliveries, GuessedStep(tick, h, guess))
    ensures GuessedStep(tick, h, guess).next == h.next + 1
    ensures GuessedStep(tick, h, guess).local == h.local && GuessedStep(tick, h, guess).remote == h.remote
    ensures GuessedStep(tick, h, guess).rollbacks == h.rollbacks
  {
    SteadyIs(tick, init, script, h);
    RecallsIs(script, deliveries, h);
    hide Steady, Recalls, TakenBy, Taken, Repeats, Settled, Guesses, Tally, GuessedStep;
    forall f: nat
      ensures f in h.remote <==> Brought(deliveries, f, h.next)
      ensures f in h.remote <==> Settled(h.table, 2, f)
    {
      BroughtIsSettled(tick, init, script, deliveries, h, h.next, nextDelivery, f);
    }
    GuessedStepIs(tick, h, guess);
    if h.next !in h.remote {
      RepeatsBrought(script, deliveries, h.table, h.remote, h.next, h.next, h.next, guess);
    }
    StepRecalls(tick, script, deliveries, h, guess);
  }

  lemma SeenNow<S>(
    tick: (S, Inputs) -> S, init: S, script: Script, deliveries: seq<Delivery>, h: Harness<S>, wallTick: nat,
    nextDelivery: nat)
    requires Steady(tick, init, script, h) && Recalls(script, deliveries, h) && h.pending.None?
    requires TakenBy(deliveries, nextDelivery, wallTick + 1) && h.remote == Taken(deliveries, nextDelivery)
    requires forall f: nat :: f in h.local <==> f < h.next
    ensures h.state == Run(tick, init, Seen(script, deliveries, wallTick), h.next)
  {
    SteadyIs(tick, init, script, h);
    RecallsIs(script, deliveries, h);
    hide *;
    RecordedIsSeen(tick, init, script, deliveries, wallTick, nextDelivery, h);
  }

  lemma RunEnds<S>(
    tick: (S, Inputs) -> S, init: S, script: Script, deliveries: seq<Delivery>, frames: nat, wallTicks: nat,
    h: Harness<S>, nextDelivery: nat)
    requires Steady(tick, init, script, h) && h.pending.None? && frames <= wallTicks
    requires Progress(script, deliveries, frames, wallTicks, h, nextDelivery)
    requires forall d :: 0 <= d < |deliveries| ==> deliveries[d].dueTick < wallTicks
    requires forall f :: 0 <= f < frames ==> Delivers(deliveries, f)
    ensures h.next == frames && nextDelivery == |deliveries|
    ensures h.state == Truth(tick, init, script, frames) && PredictedKeys(h.table) == {}
    ensures h.made == |GuessedBelow(deliveries, frames)|
    ensures h.misses == |WrongBelow(script, deliveries, frames)| && h.misses + h.lateMatches == h.made
    ensures h.rollbacks == |RollTicks(script, deliveries, frames, wallTicks)|
    ensures h.rollbacks <= h.misses && (h.rollbacks == 0 <==> h.misses == 0)
  {
    AllTaken(deliveries, frames, wallTicks, nextDelivery);
    hide Recalls, Steady, TakenBy, Taken, Delivers, RollTicks, Misses, WrongBelow, GuessedBelow;
    AllResolved(script, deliveries, frames, h.remote);
    assert Tally(script, deliveries, h) by { RecallsIs(script, deliveries, h); }
    hide LateMatches;
    SettledIsTruth(tick, init, script, h);
  }

  lemma AllTaken(deliveries: seq<Delivery>, frames: nat, wallTicks: nat, nextDelivery: nat)
    requires TakenBy(deliveries, nextDelivery, wallTicks)
    requires forall d :: 0 <= d < |deliveries| ==> deliveries[d].dueTick < wallTicks
    requires forall f :: 0 <= f < frames ==> Delivers(deliveries, f)
    ensures nextDelivery == |deliveries| && forall f :: 0 <= f < frames ==> f in Taken(deliveries, nextDelivery)
  {
    forall f | 0 <= f < frames ensures f in Taken(deliveries, nextDelivery) { assert Delivers(deliveries, f); }
  }

  lemma AllResolved(script: Script, deliveries: seq<Delivery>, frames: nat, remote: set<nat>)
    requires forall f :: 0 <= f < frames ==> f in remote
    ensures Misses(script, deliveries, frames, remote) == |WrongBelow(script, deliveries, frames)|
  {
    assert WrongBelow(script, deliveries, frames) * remote == WrongBelow(script, deliveries, frames);
  }

  datatype Failure = MissingSnapshot | ReplayInputMissing

  /** The variables of the harness, updated in place. */
  class RollbackRun<S> {
    const tick: (S, Inputs) -> S
    const init: S
    const script: Script
    const buffer: LockstepInputBuffer
    var snapshots: seq<Snapshot<S>>
    var rollbackFrame: Option<nat>
    var predictedNextFrame: nat
    var state: S
    var rollbackCount: nat
    var predictionMissCount: nat
    var predictionLateMatchCount: nat
    ghost var predictionsMade: nat
    ghost var localFrames: set<nat>
    ghost var remoteFrames: set<nat>

    ghost function View(): Harness<S>
      reads this, buffer
    {
      Harness(buffer.table, snapshots, rollbackFrame, predictedNextFrame, state, rollbackCount,
              predictionMissCount, predictionLateMatchCount, predictionsMade, localFrames, remoteFrames)
    }

    constructor (tick: (S, Inputs) -> S, init: S, script: Script)
      ensures fresh(buffer) && this.tick == tick && this.init == init && this.script == script
      ensures buffer.Valid() && View() == Start(init)
    {
      this.tick, this.init, this.script := tick, init, script;
      buffer := new LockstepInputBuffer();
      snapshots, rollbackFrame, predictedNextFrame, state := [], None, 0, init;
      rollbackCount, predictionMissCount, predictionLateMatchCount := 0, 0, 0;
      predictionsMade, localFrames, remoteFrames := 0, {}, {};
    }

    method StoreLocal(wallTick: nat)
      requires buffer.Valid()
      modifies this`localFrames, buffer
      ensures buffer.Valid() && localFrames == old(localFrames) + {wallTick}
      ensures View() == LocalStored(script, old(View()), wallTick)
    {
      var local := Record(1, wallTick, 0, ScriptAt(script, wallTick).p1, false, false, false);
      var _ := buffer.Store(local);
      localFrames := localFrames + {wallTick};
    }

    method DeliverOne(frame: nat)
      requires buffer.Valid()
      modifies this`rollbackFrame, this`predictionMissCount, this`predictionLateMatchCount, this`remoteFrames, buffer
      ensures buffer.Valid()
      ensures var after := Delivered(script, old(View()), frame);
              && buffer.table == after.table && rollbackFrame == after.pending && remoteFrames == after.remote
              && predictionMissCount == after.misses && predictionLateMatchCount == after.lateMatches
    {
      var remote := Record(2, frame, 0, ScriptAt(script, frame).p2, false, false, false);
      assert remote == Actual(script, 2, frame);
      hide Actual, Stored, Outcome;
      var result := buffer.Store(remote);
      if result.replacedPrediction {
        if result.mismatchFrame.Some? {
          predictionMissCount := predictionMissCount + 1;
        } else {
          predictionLateMatchCount := predictionLateMatchCount + 1;
        }
      }
      if result.mismatchFrame.Some? && result.mismatchFrame.value < predictedNextFrame {
        if rollbackFrame.None? || result.mismatchFrame.value < rollbackFrame.value {
          rollbackFrame := result.mismatchFrame;
        }
      }
      remoteFrames := remoteFrames + {frame};
    }

    // The inputs of the frame; with none recorded for player 2, repeat its last known input.
    method BuildRollbackInputs(frame: nat) returns (inputs: Option<Inputs>)
      requires buffer.Valid() && Sound(tick, init, script, View())
      modifies this`predictionsMade, buffer
      ensures buffer.Valid() && Sound(tick, init, script, View())
      ensures inputs.None? ==> View() == old(View())
      ensures inputs.Some? <==> Key(1, frame) in old(buffer.table)
      ensures inputs.Some? ==> Present(buffer.table, frame) && inputs.value == Recorded(buffer.table)(frame)
      ensures inputs.Some? && Key(2, frame) !in old(buffer.table) ==>
                View() == PredictionAdded(old(View()), frame, inputs.value.p2) &&
                Repeats(old(buffer.table), 2, frame, inputs.value.p2)
      ensures Present(old(buffer.table), frame) ==> View() == old(View())
      ensures forall k :: k in old(buffer.table) ==> k in buffer.table && buffer.table[k] == old(buffer.table)[k]
      ensures forall k :: k in buffer.table && k !in old(buffer.table) ==>
                k == Key(2, frame) && buffer.table[k].predicted &&
                Repeats(old(buffer.table), 2, frame, buffer.table[k].input)
    {
      hide Sound, Repeats;
      var p1 := buffer.Find(1, frame);
      if p1.None? {
        return None;
      }
      var p2 := buffer.Find(2, frame);
      if p2.None? {
        p2 := PredictRemote(frame);
      }
      inputs := Some(Inputs(p1.value, p2.value));
    }

    // A prediction of player 2 that repeats its last actual input.
    method PredictRemote(frame: nat) returns (input: Option<InputFrame>)
      requires buffer.Valid() && Sound(tick, init, script, View()) && Key(2, frame) !in buffer.table
      modifies this`predictionsMade, buffer
      ensures buffer.Valid() && Sound(tick, init, script, View()) && input.Some?
      ensures View() == PredictionAdded(old(View()), frame, input.value)
      ensures buffer.table.Keys == old(buffer.table).Keys + {Key(2, frame)}
      ensures forall k :: k in old(buffer.table) ==> k in buffer.table && buffer.table[k] == old(buffer.table)[k]
      ensures buffer.table[Key(2, frame)].predicted && buffer.table[Key(2, frame)].input == input.value
      ensures Repeats(old(buffer.table), 2, frame, input.value)
    {
      hide Sound, Repeats;
      var latest := buffer.FindLatestRecordBefore(2, frame);
      var guess := if latest.Some? then latest.value.input else NEUTRAL;
      LatestRepeats(buffer.table, 2, frame, latest);
      PredictionKeeps(tick, init, script, View(), frame, guess);
      var _ := buffer.Store(Record(2, frame, 0, guess, true, false, false));
      predictionsMade := predictionsMade + 1;
      input := buffer.Find(2, frame);
    }

    method StepFrame(inputs: Inputs)
      requires inputs == Recorded(buffer.table)(predictedNextFrame)
      modifies this`snapshots, this`state, this`predictedNextFrame
      ensures View() == Stepped(tick, old(View()))
    {
      snapshots := SaveRollbackSnapshot(snapshots, predictedNextFrame, state);
      state := tick(state, inputs);
      predictedNextFrame := predictedNextFrame + 1;
    }

    // Restore the snapshot of the earliest mismatch and step again to where the run was.
    method ReplayPending() returns (failure: Option<Failure>)
      requires buffer.Valid() && Steady(tick, init, script, View())
      modifies this, buffer
      ensures failure.None?
      ensures buffer.Valid() && Steady(tick, init, script, View()) && rollbackFrame.None?
      ensures predictedNextFrame == old(predictedNextFrame) && buffer.table == old(buffer.table)
      ensures localFrames == old(localFrames) && remoteFrames == old(remoteFrames)
      ensures predictionsMade == old(predictionsMade) && predictionMissCount == old(predictionMissCount)
      ensures predictionLateMatchCount == old(predictionLateMatchCount)
      ensures rollbackCount == old(rollbackCount) + if old(rollbackFrame).Some? then 1 else 0
    {
      if rollbackFrame.None? {
        return None;
      }
      var target := predictedNextFrame;
      RestoreKeeps(tick, init, script, View());
      var snapshot := FindRollbackSnapshot(snapshots, rollbackFrame.value);
      if snapshot.None? {
        return Some(MissingSnapshot);
      }
      state := snapshot.value;
      predictedNextFrame := rollbackFrame.value;
      rollbackFrame := None;
      rollbackCount := rollbackCount + 1;
      assert View() == Restored(old(View()));
      while predictedNextFrame < target
        invariant predictedNextFrame <= target && rollbackFrame.None? && rollbackCount > 0
        invariant buffer.Valid() && Sound(tick, init, script, View()) && buffer.table == old(buffer.table)
        invariant localFrames == old(localFrames) && remoteFrames == old(remoteFrames)
        invariant predictionsMade == old(predictionsMade) && predictionMissCount == old(predictionMissCount)
        invariant predictionLateMatchCount == old(predictionLateMatchCount) && rollbackCount == old(rollbackCount) + 1
      {
        assert Present(old(buffer.table), predictedNextFrame);
        var inputs := BuildRollbackInputs(predictedNextFrame);
        if inputs.None? {
          return Some(ReplayInputMissing);
        }
        StepKeeps(tick, init, script, View());
        StepFrame(inputs.value);
      }
      failure := None;
    }

    // Step one new frame, if the local input for it is there, on a guess if player 2's is not.
    method StepNext() returns (stepped: bool, ghost guess: InputFrame)
      requires buffer.Valid() && Steady(tick, init, script, View()) && rollbackFrame.None?
      modifies this, buffer
      ensures buffer.Valid() && Steady(tick, init, script, View()) && rollbackFrame.None?
      ensures stepped <==> Key(1, old(predictedNextFrame)) in old(buffer.table)
      ensures stepped ==> View() == GuessedStep(tick, old(View()), guess)
      ensures stepped && Key(2, old(predictedNextFrame)) !in old(buffer.table) ==>
                Repeats(old(buffer.table), 2, old(predictedNextFrame), guess)
      ensures !stepped ==> View() == old(View())
    {
      hide Repeats, Consistent, Honest;
      ghost var before := PredictedKeys(buffer.table);
      guess := NEUTRAL;
      var inputs := BuildRollbackInputs(predictedNextFrame);
      if inputs.None? {
        return false, guess;
      }
      assert forall k :: k in PredictedKeys(buffer.table) ==> k in before || k.frame == predictedNextFrame;
      hide Sound;
      guess := inputs.value.p2;
      StepKeeps(tick, init, script, View());
      StepFrame(inputs.value);
      stepped := true;
    }

    method DeliverDue(deliveries: seq<Delivery>, first: nat, wallTick: nat) returns (nextDelivery: nat)
      requires buffer.Valid() && Steady(tick, init, script, View()) && rollbackFrame.None?
      requires TakenBy(deliveries, first, wallTick) && remoteFrames == Taken(deliveries, first)
      requires Recalls(script, deliveries, View())
      modifies this, buffer
      ensures buffer.Valid() && Steady(tick, init, script, View()) && Recalls(script, deliveries, View())
      ensures predictedNextFrame == old(predictedNextFrame) && localFrames == old(localFrames)
      ensures TakenBy(deliveries, nextDelivery, wallTick + 1) && remoteFrames == Taken(deliveries, nextDelivery)
      ensures rollbackCount == old(rollbackCount)
      ensures rollbackFrame.Some? <==>
              MissedSince(script, deliveries, old(remoteFrames), remoteFrames, predictedNextFrame)
    {
      hide Steady, Recalls, Wrong, MissedSince, Taken;
      MissedNever(script, deliveries, remoteFrames, predictedNextFrame);
      nextDelivery := first;
      while nextDelivery < |deliveries| && deliveries[nextDelivery].dueTick <= wallTick
        invariant buffer.Valid() && Steady(tick, init, script, View()) && Recalls(script, deliveries, View())
        invariant first <= nextDelivery <= |deliveries| && remoteFrames == Taken(deliveries, nextDelivery)
        invariant forall d :: 0 <= d < nextDelivery ==> deliveries[d].dueTick < wallTick + 1
        invariant predictedNextFrame == old(predictedNextFrame) && localFrames == old(localFrames)
        invariant rollbackCount == old(rollbackCount) && old(remoteFrames) <= remoteFrames
        invariant rollbackFrame.Some? <==>
                  MissedSince(script, deliveries, old(remoteFrames), remoteFrames, predictedNextFrame)
      {
        ghost var known := remoteFrames;
        DeliverNext(deliveries, nextDelivery);
        ghost var frame := deliveries[nextDelivery].inputFrame;
        MissedNow(script, deliveries, old(remoteFrames), known, frame, predictedNextFrame);
        nextDelivery := nextDelivery + 1;
      }
    }

    method DeliverNext(deliveries: seq<Delivery>, n: nat)
      requires buffer.Valid() && Steady(tick, init, script, View()) && Recalls(script, deliveries, View())
      requires n < |deliveries| && remoteFrames == Taken(deliveries, n)
      modifies this`rollbackFrame, this`predictionMissCount, this`predictionLateMatchCount, this`remoteFrames, buffer
      ensures buffer.Valid() && Steady(tick, init, script, View()) && Recalls(script, deliveries, View())
      ensures remoteFrames == Taken(deliveries, n + 1) == old(remoteFrames) + {deliveries[n].inputFrame}
      ensures var frame := deliveries[n].inputFrame;
              rollbackFrame.Some? <==>
              old(rollbackFrame).Some? ||
              (frame !in old(remoteFrames) && frame < predictedNextFrame && Wrong(script, deliveries, frame))
    {
      hide Steady, Recalls, Wrong;
      var frame := deliveries[n].inputFrame;
      DeliveryKeeps(tick, init, script, View(), frame);
      SteadyIs(tick, init, script, View());
      DeliveryRecalls(script, deliveries, View(), frame);
      ghost var after := Delivered(script, View(), frame);
      DeliverOne(frame);
      assert View() == after;
      hide Delivered;
    }

    // The local input is stored, the due deliveries are taken, and a miss among them rolls back.
    method CatchUp(deliveries: seq<Delivery>, frames: nat, wallTick: nat, first: nat)
      returns (failure: Option<Failure>, nextDelivery: nat)
      requires buffer.Valid() && Steady(tick, init, script, View()) && rollbackFrame.None?
      requires Progress(script, deliveries, frames, wallTick, View(), first)
      modifies this, buffer
      ensures failure.None? && rollbackFrame.None?
      ensures buffer.Valid() && Steady(tick, init, script, View())
      ensures CaughtUp(script, deliveries, frames, wallTick, View(), nextDelivery)
    {
      hide Steady, Recalls, LocalStored, RollTicks, TakenBy, MissedSince, Taken;
      if wallTick < frames {
        LocalKeeps(tick, init, script, View(), wallTick);
        LocalRecalls(script, deliveries, View(), wallTick);
        LocalIs(script, View(), wallTick);
        StoreLocal(wallTick);
      }
      nextDelivery := DeliverDue(deliveries, first, wallTick);
      RollsBackNow(script, deliveries, frames, wallTick, first, nextDelivery);
      MoreRolls(script, deliveries, frames, wallTick);
      ghost var delivered := View();
      failure := ReplayPending();
      if failure.Some? {
        return;
      }
      ReplayRecalls(script, deliveries, delivered, View());
    }

    /**
     One tick. It never fails, and afterwards the state is the fold of the inputs as they are seen
     at the end of the tick.
     */
    method RunTick(deliveries: seq<Delivery>, frames: nat, wallTick: nat, first: nat)
      returns (failure: Option<Failure>, nextDelivery: nat)
      requires buffer.Valid() && Steady(tick, init, script, View()) && rollbackFrame.None?
      requires Progress(script, deliveries, frames, wallTick, View(), first)
      modifies this, buffer
      ensures failure.None? && rollbackFrame.None?
      ensures buffer.Valid() && Steady(tick, init, script, View())
      ensures Progress(script, deliveries, frames, wallTick + 1, View(), nextDelivery)
      ensures state == Run(tick, init, Seen(script, deliveries, wallTick), Least(wallTick + 1, frames))
    {
      hide Steady, Recalls, RollTicks, TakenBy, Taken, Progress, GuessedStep;
      failure, nextDelivery := CatchUp(deliveries, frames, wallTick, first);
      if failure.Some? {
        return;
      }
      if predictedNextFrame < frames {
        ghost var before := View();
        LocalThere(script, deliveries, before, predictedNextFrame);
        var stepped, guess := StepNext();
        StepIsRecalled(tick, init, script, deliveries, before, guess, nextDelivery);
      }
      SeenNow(tick, init, script, deliveries, View(), wallTick, nextDelivery);
      MakesProgress(script, deliveries, frames, wallTick, View(), nextDelivery);
    }

    /**
     The whole harness. Every frame is stepped in its own tick, guessed exactly if its input has
     not been brought by then; what is guessed wrong is rolled back in the tick that brings it;
     what is shown after each tick is the fold of the inputs seen by then; and in the end nothing
     is predicted and the state is the truth.
     */
    method RunLatency(deliveries: seq<Delivery>, frames: nat, wallTicks: nat)
      returns (failure: Option<Failure>, nextDelivery: nat, ghost shown: seq<S>)
      requires buffer.Valid() && View() == Start(init)
      requires frames <= wallTicks
      // The schedule: every remote input arrives at least once, by the last tick.
      requires forall d :: 0 <= d < |deliveries| ==> deliveries[d].dueTick < wallTicks
      requires forall f :: 0 <= f < frames ==> Delivers(deliveries, f)
      modifies this, buffer
      ensures failure.None?
      ensures predictedNextFrame == frames && nextDelivery == |deliveries|
      ensures state == Truth(tick, init, script, frames)
      ensures PredictedKeys(buffer.table) == {}
      ensures predictionsMade == |GuessedBelow(deliveries, frames)|
      ensures predictionMissCount == |WrongBelow(script, deliveries, frames)|
      ensures predictionLateMatchCount == predictionsMade - predictionMissCount
      ensures rollbackCount == |RollTicks(script, deliveries, frames, wallTicks)|
      ensures rollbackCount <= predictionMissCount && (rollbackCount == 0 <==> predictionMissCount == 0)
      ensures |shown| == wallTicks && forall t: nat :: t < wallTicks ==>
                shown[t] == Run(tick, init, Seen(script, deliveries, t), Least(t + 1, frames))
    {
      hide Steady, Seen, Progress;
      nextDelivery, shown := 0, [];
      StartSteady(tick, init, script);
      StartProgress(script, deliveries, frames, init);
      for wallTick := 0 to wallTicks
        invariant buffer.Valid() && Steady(tick, init, script, View()) && rollbackFrame.None?
        invariant Progress(script, deliveries, frames, wallTick, View(), nextDelivery)
        invariant |shown| == wallTick && forall t: nat :: t < wallTick ==>
                    shown[t] == Run(tick, init, Seen(script, deliveries, t), Least(t + 1, frames))
      {
        failure, nextDelivery := RunTick(deliveries, frames, wallTick, nextDelivery);
        if failure.Some? {
          return;
        }
        shown := shown + [state];
      }
      failure := None;
      RunEnds(tick, init, script, deliveries, frames, wallTicks, View(), nextDelivery);
    }
  }
}
