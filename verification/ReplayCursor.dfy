/**
 Replaying a recorded desync: one cursor walks the input records while the frames are stepped.
 What it applies is exactly a filter of the records, whatever their order.
 */
module ReplayCursor {
  import opened InputFrames
  import opened Options

  const MAX_FRAME: nat := 0xFFFF_FFFF_FFFF_FFFF
  const NO_PLAYER: nat := 0

  datatype Record = Record(playerId: nat, frame: nat, flags: nat, mouseX: nat, mouseY: nat)

  // What the replay does to a game state it does not look into.
  datatype Game<!S> = Game(
    primary: S -> Option<nat>, setSnapshot: (S, InputFrame) -> S, setPlayer: (S, nat, InputFrame) -> S, tick: S -> S)

  function PrimaryOf<S>(game: Game<S>, s: S): nat {
    if game.primary(s).Some? then game.primary(s).value else NO_PLAYER
  }

  function Delivered<S>(game: Game<S>, primary: nat, s: S, r: Record): S {
    var input := UnpackInputFrame(r.flags, r.mouseX, r.mouseY);
    if r.playerId == primary then game.setSnapshot(s, input) else game.setPlayer(s, r.playerId, input)
  }

  function AllDelivered<S>(game: Game<S>, primary: nat, s: S, rs: seq<Record>): S {
    if rs == [] then s
    else Delivered(game, primary, AllDelivered(game, primary, s, rs[..|rs| - 1]), rs[|rs| - 1])
  }

  // The last input of a player among some records.
  function LastOf(rs: seq<Record>, playerId: nat): Option<InputFrame> {
    if rs == [] then None
    else
      var last := rs[|rs| - 1];
      if last.playerId == playerId then Some(UnpackInputFrame(last.flags, last.mouseX, last.mouseY))
      else LastOf(rs[..|rs| - 1], playerId)
  }

  // A game that shows what it was given.
  datatype Board = Board(primary: Option<nat>, snapshot: InputFrame, players: map<nat, InputFrame>)

  const BOARD: Game<Board> := Game(
    (b: Board) => b.primary, (b: Board, f: InputFrame) => b.(snapshot := f),
    (b: Board, p: nat, f: InputFrame) => b.(players := b.players[p := f]), (b: Board) => b)

  /** The primary player's last input goes to the snapshot, any other's to that player, and nothing else changes. */
  lemma {:induction false} EachDelivered(primary: nat, b: Board, rs: seq<Record>, p: nat)
    ensures var c := AllDelivered(BOARD, primary, b, rs);
            && c.primary == b.primary
            && c.snapshot == (if LastOf(rs, primary).Some? then LastOf(rs, primary).value else b.snapshot)
            && (p != primary && LastOf(rs, p).Some? ==> p in c.players && c.players[p] == LastOf(rs, p).value)
            && (p == primary || LastOf(rs, p).None? ==>
                  (p in c.players <==> p in b.players) && (p in c.players ==> c.players[p] == b.players[p]))
    decreases |rs|
  {
    hide UnpackInputFrame;
    if rs != [] { EachDelivered(primary, b, rs[..|rs| - 1], p); }
  }

  function Stepped<S>(game: Game<S>, s: S, rs: seq<Record>): S {
    game.tick(AllDelivered(game, PrimaryOf(game, s), s, rs))
  }

  // ----- the filter -----

  // A record the cursor reaches in its own frame: nothing before it is later, and since the
  // first record of its frame there has been none of another.
  ghost predicate Reached(records: seq<Record>, i: nat)
    requires i < |records|
  {
    && (forall j :: 0 <= j < i ==> records[j].frame <= records[i].frame)
    && (forall k, j :: 0 <= k < j < i && records[k].frame == records[i].frame ==> records[j].frame == records[i].frame)
  }

  // The reached records of a frame among the first n, in order.
  ghost function OfFrame(records: seq<Record>, frame: nat, n: nat): seq<Record>
    requires n <= |records|
  {
    if n == 0 then []
    else
      var rest := OfFrame(records, frame, n - 1);
      if records[n - 1].frame == frame && Reached(records, n - 1) then rest + [records[n - 1]] else rest
  }

  // Every frame from one to another steps on exactly its own records.
  ghost function Filtered<S>(game: Game<S>, records: seq<Record>, s: S, frame: nat, target: nat): S
    decreases target + 1 - frame
  {
    if frame > target then s
    else
      Filtered(game, records, Stepped(game, s, OfFrame(records, frame, |records|)), frame + 1, target)
  }

  ghost predicate Ordered(records: seq<Record>) {
    forall i, j :: 0 <= i < j < |records| ==> records[i].frame <= records[j].frame
  }

  /** Records in frame order are all reached. */
  lemma OrderedReached(records: seq<Record>, i: nat)
    requires Ordered(records) && i < |records|
    ensures Reached(records, i)
  {
  }

  /** In frame order, a record is applied in its own tick and no other. */
  lemma {:induction false} OrderedApplied(records: seq<Record>, frame: nat, n: nat)
    requires Ordered(records) && n <= |records|
    ensures OfFrame(records, frame, n) == FramesEqual(records[..n], frame)
  {
    if n > 0 {
      OrderedApplied(records, frame, n - 1);
      OrderedReached(records, n - 1);
      assert records[..n][..n - 1] == records[..n - 1];
    }
  }

  // The plain filter by frame.
  function FramesEqual(records: seq<Record>, frame: nat): seq<Record> {
    if records == [] then []
    else
      var rest, last := FramesEqual(records[..|records| - 1], frame), records[|records| - 1];
      if last.frame == frame then rest + [last] else rest
  }

  /** Of two records in the wrong order, such as for frames 5 and 3, the second is never applied. */
  lemma WrongOrderSkips(a: Record, b: Record, frame: nat)
    requires a.frame > b.frame
    ensures OfFrame([a, b], frame, 2) == if frame == a.frame then [a] else []
    ensures FramesEqual([a, b], b.frame) == [b]
  {
    assert [a, b][..1] == [a] && [a][..0] == [];
    assert OfFrame([a, b], frame, 1) == if frame == a.frame then [a] else [];
    assert FramesEqual([a], b.frame) == [];
  }

  // ----- the cursor -----

  function Skipped(records: seq<Record>, c: nat, frame: nat): (d: nat)
    requires c <= |records|
    ensures c <= d <= |records|
    ensures forall j :: c <= j < d ==> records[j].frame < frame
    ensures d < |records| ==> records[d].frame >= frame
    decreases |records| - c
  {
    if c < |records| && records[c].frame < frame then Skipped(records, c + 1, frame) else c
  }

  function Taken(records: seq<Record>, c: nat, frame: nat): (d: nat)
    requires c <= |records|
    ensures c <= d <= |records|
    ensures forall j :: c <= j < d ==> records[j].frame == frame
    ensures d < |records| ==> records[d].frame != frame
    decreases |records| - c
  {
    if c < |records| && records[c].frame == frame then Taken(records, c + 1, frame) else c
  }

  // Everything before the cursor belongs to an earlier frame.
  ghost predicate Past(records: seq<Record>, c: nat, frame: nat) {
    c <= |records| && forall j :: 0 <= j < c ==> records[j].frame < frame
  }

  lemma PastStart(records: seq<Record>, frame: nat)
    ensures Past(records, 0, frame)
  {
  }

  // Nothing after the run the cursor takes is reached in this frame.
  lemma NothingAfter(records: seq<Record>, a: nat, b: nat, i: nat, frame: nat)
    requires a <= b <= i < |records| && records[b].frame != frame && records[i].frame == frame
    requires records[a].frame >= frame && (a < b ==> records[a].frame == frame)
    ensures !Reached(records, i)
  {
  }

  // The records of the frame that the cursor reaches are the run it takes.
  lemma ReachedRun(records: seq<Record>, c: nat, frame: nat, i: nat)
    requires Past(records, c, frame) && i < |records|
    ensures var a := Skipped(records, c, frame);
            records[i].frame == frame && Reached(records, i) <==> a <= i < Taken(records, a, frame)
  {
    var a := Skipped(records, c, frame);
    var b := Taken(records, a, frame);
    hide Skipped, Taken;
    if i >= b && records[i].frame == frame {
      hide Reached;
      NothingAfter(records, a, b, i, frame);
    }
  }

  /** What the cursor takes in a frame is the filter of all the records. */
  lemma {:induction false} CursorTakes(records: seq<Record>, c: nat, frame: nat, n: nat)
    requires Past(records, c, frame) && n <= |records|
    ensures var a := Skipped(records, c, frame);
            var b := Taken(records, a, frame);
            OfFrame(records, frame, n) == if n <= a then [] else records[a..if n < b then n else b]
  {
    var a := Skipped(records, c, frame);
    var b := Taken(records, a, frame);
    if n > 0 {
      hide Skipped, Taken, Reached, Past;
      var i := n - 1;
      CursorTakes(records, c, frame, i);
      ReachedRun(records, c, frame, i);
      if a <= i < b { assert records[a..i] + [records[i]] == records[a..n]; }
    }
  }

  // ----- the replay -----

  method ApplyReplayInputsForFrame<S>(game: Game<S>, s: S, inputs: seq<Record>, inputIndex: nat, frame: nat)
    returns (next: S, index: nat)
    requires Past(inputs, inputIndex, frame)
    ensures next == AllDelivered(game, PrimaryOf(game, s), s, OfFrame(inputs, frame, |inputs|))
    ensures Past(inputs, index, frame + 1)
  {
    CursorTakes(inputs, inputIndex, frame, |inputs|);
    hide OfFrame, Delivered, AllDelivered;
    var primary := game.primary(s);
    var primaryId := if primary.Some? then primary.value else NO_PLAYER;
    index := inputIndex;
    while index < |inputs| && inputs[index].frame < frame
      invariant index <= |inputs| && Skipped(inputs, index, frame) == Skipped(inputs, inputIndex, frame)
    {
      index := index + 1;
    }
    next, index := DeliverRun(game, primaryId, s, inputs, index, frame);
  }

  method DeliverRun<S>(game: Game<S>, primaryId: nat, s: S, inputs: seq<Record>, first: nat, frame: nat)
    returns (next: S, index: nat)
    requires first <= |inputs|
    ensures index == Taken(inputs, first, frame) && next == AllDelivered(game, primaryId, s, inputs[first..index])
  {
    hide Delivered, AllDelivered;
    assert inputs[first..first] == [];
    assert AllDelivered(game, primaryId, s, []) == s by { DeliveredNothing(game, primaryId, s); }
    next, index := s, first;
    while index < |inputs| && inputs[index].frame == frame
      invariant first <= index <= |inputs| && Taken(inputs, index, frame) == Taken(inputs, first, frame)
      invariant next == AllDelivered(game, primaryId, s, inputs[first..index])
    {
      next := Deliver(game, primaryId, next, inputs[index]);
      DeliveredOn(game, primaryId, s, inputs, first, index);
      index := index + 1;
    }
  }

  lemma DeliveredNothing<S>(game: Game<S>, primary: nat, s: S)
    ensures AllDelivered(game, primary, s, []) == s
  {
  }

  lemma DeliveredOn<S>(game: Game<S>, primary: nat, s: S, rs: seq<Record>, a: nat, b: nat)
    requires a <= b < |rs|
    ensures AllDelivered(game, primary, s, rs[a..b + 1]) ==
            Delivered(game, primary, AllDelivered(game, primary, s, rs[a..b]), rs[b])
  {
    hide Delivered;
    var longer := rs[a..b + 1];
    assert |longer| == b + 1 - a && longer[|longer| - 1] == rs[b];
    assert longer[..|longer| - 1] == rs[a..b];
  }

  method Deliver<S>(game: Game<S>, primaryId: nat, s: S, input: Record) returns (next: S)
    ensures next == Delivered(game, primaryId, s, input)
  {
    var inputFrame := UnpackInputFrame(input.flags, input.mouseX, input.mouseY);
    if input.playerId == primaryId {
      next := game.setSnapshot(s, inputFrame);
    } else {
      next := game.setPlayer(s, input.playerId, inputFrame);
    }
  }

  function NextFrame(frame: nat): (next: nat)
    ensures frame < MAX_FRAME ==> next == frame + 1
  {
    (frame + 1) % (MAX_FRAME + 1)
  }

  lemma FilteredSteps<S>(game: Game<S>, records: seq<Record>, s: S, frame: nat, target: nat)
    requires frame <= target
    ensures var next := Stepped(game, s, OfFrame(records, frame, |records|));
            && Filtered(game, records, s, frame, target) == Filtered(game, records, next, frame + 1, target)
            && (frame == target ==> Filtered(game, records, s, frame, target) == next)
  {
  }

  method ReplayFrame<S>(game: Game<S>, s: S, inputs: seq<Record>, inputIndex: nat, frame: nat)
    returns (next: S, index: nat)
    requires Past(inputs, inputIndex, frame)
    ensures next == Stepped(game, s, OfFrame(inputs, frame, |inputs|)) && Past(inputs, index, frame + 1)
  {
    next, index := ApplyReplayInputsForFrame(game, s, inputs, inputIndex, frame);
    next := game.tick(next);
  }

  /** The frames of a replay, up to the stop frame or else the mismatch; the frame counter is 64-bit and wraps. */
  method ReplayDesyncToState<S>(
    game: Game<S>, initial: S, inputs: seq<Record>, startFrame: nat, mismatchFrame: nat, stopFrame: Option<nat>)
    returns (end: S)
    requires startFrame <= MAX_FRAME && mismatchFrame <= MAX_FRAME && (stopFrame.Some? ==> stopFrame.value <= MAX_FRAME)
    ensures end == Filtered(game, inputs, initial, startFrame,
                            if stopFrame.Some? then stopFrame.value else mismatchFrame)
  {
    end := initial;
    var target := if stopFrame.Some? then stopFrame.value else mismatchFrame;
    if startFrame <= target {
      end := ReplayFrames(game, initial, inputs, startFrame, target);
    }
  }

  method ReplayFrames<S>(game: Game<S>, initial: S, inputs: seq<Record>, startFrame: nat, target: nat) returns (end: S)
    requires startFrame <= target <= MAX_FRAME
    ensures end == Filtered(game, inputs, initial, startFrame, target)
  {
    PastStart(inputs, startFrame);
    hide *;
    end := initial;
    var frame: nat, inputIndex: nat := startFrame, 0;
    while frame <= target
      invariant frame <= target && Past(inputs, inputIndex, frame)
      invariant Filtered(game, inputs, end, frame, target) == Filtered(game, inputs, initial, startFrame, target)
      decreases target - frame
    {
      FilteredSteps(game, inputs, end, frame, target);
      end, inputIndex := ReplayFrame(game, end, inputs, inputIndex, frame);
      if frame == target {
        return;
      }
      frame := NextFrame(frame);
    }
  }
}
