/**
 The rollback of a networked peer: inputs are kept for a window of frames, snapshots for a
 window of frames, and the host's canonical records arrive late, repeatedly and out of order.
 */
module PeerRollback {
  import opened Options
  import opened InputFrames
  import opened InputBuffer
  import opened Snapshots

  const INPUT_HISTORY_FRAMES: nat := 12

  // The peer's fixed surroundings: the tick, the required players and the local ones among
  // them, the input delay, the largest rollback, and the frame its session begins at.
  datatype Config<!S> = Config(
    tick: (S, seq<InputFrame>) -> S, init: S, players: seq<nat>, locals: set<nat>, delay: nat, window: nat, base: nat)
  {
    function Kept(): nat { window + 4 }

    function History(): nat { if Kept() > INPUT_HISTORY_FRAMES then Kept() else INPUT_HISTORY_FRAMES }

    // The first frame of the session that lies in a window of n frames before next.
    function From(next: nat, n: nat): nat { if next > base + n then next - n else base }
  }

  // The first frame of a window of n frames before next.
  function Low(next: nat, n: nat): nat { if next > n then next - n else 0 }

  // The inputs of the required players at a frame.
  function InputsAt<S>(c: Config<S>, table: Table, frame: nat): seq<InputFrame> {
    seq(|c.players|, i requires 0 <= i < |c.players| => InputOf(table, c.players[i], frame))
  }

  ghost predicate AllPresent<S>(c: Config<S>, table: Table, frame: nat) {
    forall i :: 0 <= i < |c.players| ==> Key(c.players[i], frame) in table
  }

  ghost predicate LocalsPresent<S>(c: Config<S>, table: Table, frame: nat) {
    forall i :: 0 <= i < |c.players| && c.players[i] in c.locals ==> Key(c.players[i], frame) in table
  }

  // Records from a frame on are kept, none is changed, and only predictions for one frame are new.
  ghost predicate Recent<S>(c: Config<S>, table: Table, after: Table, low: nat, frame: nat) {
    && (forall k :: k in table && k.frame >= low ==> k in after)
    && (forall k :: k in after && k in table ==> after[k] == table[k])
    && (forall k :: k in after && k !in table ==>
          after[k].predicted && !after[k].canonical && k.playerId !in c.locals && k.frame == frame)
  }

  ghost predicate Shared(a: seq<seq<InputFrame>>, b: seq<seq<InputFrame>>, n: nat) {
    n <= |a| && n <= |b| && a[..n] == b[..n]
  }

  // The state after stepping a list of inputs.
  function Fold<S>(c: Config<S>, used: seq<seq<InputFrame>>): S
    decreases |used|
  {
    if used == [] then c.init else c.tick(Fold(c, used[..|used| - 1]), used[|used| - 1])
  }

  // `used` is bookkeeping: the inputs each frame was last stepped on.
  datatype Peer<S> = Peer(
    table: Table, snapshots: seq<Snapshot<S>>, requested: Option<nat>, next: nat, state: S, used: seq<seq<InputFrame>>)

  /**
   The invariant, for a peer that is replaying up to a target or, with target next, at rest:
   inside the session and the windows every frame has its inputs and its snapshot; up to the requested frame
   the snapshots are what the used inputs make, and before it the used inputs are the recorded.
   */
  ghost predicate Consistent<S>(c: Config<S>, p: Peer<S>, target: nat) {
    && Keyed(p.table) && c.base <= |p.used| == p.next <= target
    && (forall f: nat :: FindSnapshot(p.snapshots, f).Some? ==> c.base <= f)
    && (p.requested.Some? ==> p.requested.value < p.next == target)
    && (forall f :: c.From(target, c.History()) <= f < target ==> AllPresent(c, p.table, f))
    && (forall f :: c.From(target, c.Kept()) <= f < target ==> FindSnapshot(p.snapshots, f).Some?)
    && (forall f :: c.From(target, c.Kept()) <= f < target && f <= Clean(p) && f < p.next ==>
          FindSnapshot(p.snapshots, f) == Some(Fold(c, p.used[..f])))
    && (forall f :: c.From(target, c.History()) <= f < Clean(p) ==> p.used[f] == InputsAt(c, p.table, f))
    && (p.requested.None? ==> p.state == Fold(c, p.used))
  }

  // Frames before this one were stepped on what is recorded now.
  function Clean<S>(p: Peer<S>): nat { if p.requested.Some? then p.requested.value else p.next }

  ghost predicate AtRest<S>(c: Config<S>, p: Peer<S>) {
    && Consistent(c, p, p.next)
    && forall f: nat :: FindSnapshot(p.snapshots, f).Some? ==> c.From(p.next, c.Kept()) <= f
  }

  // ----- the steps on values -----

  function RecordStored<S>(p: Peer<S>, r: Record): Peer<S> {
    p.(table := Stored(p.table, r), requested := Request(p.requested, Outcome(p.table, r).mismatchFrame, p.next))
  }

  function CanonicalStored<S>(p: Peer<S>, records: seq<Record>): Peer<S> {
    if records == [] then p
    else
      var q, last := CanonicalStored(p, records[..|records| - 1]), records[|records| - 1];
      if last.canonical then RecordStored(q, last) else q
  }

  function Restored<S>(p: Peer<S>): Peer<S>
    requires p.requested.Some? && p.requested.value <= |p.used| && FindSnapshot(p.snapshots, p.requested.value).Some?
  {
    p.(state := FindSnapshot(p.snapshots, p.requested.value).value, next := p.requested.value, requested := None,
       used := p.used[..p.requested.value])
  }

  function Stepped<S>(c: Config<S>, p: Peer<S>): Peer<S> {
    var inputs := InputsAt(c, p.table, p.next);
    p.(snapshots := WithSnapshot(p.snapshots, p.next, p.state), state := c.tick(p.state, inputs), next := p.next + 1,
       used := p.used + [inputs])
  }

  function SnapshotsFrom<S>(snapshots: seq<Snapshot<S>>, first: nat): seq<Snapshot<S>> {
    if snapshots == [] then []
    else
      var rest := SnapshotsFrom(snapshots[..|snapshots| - 1], first);
      var last := snapshots[|snapshots| - 1];
      if last.frame < first then rest else rest + [last]
  }

  function SnapshotsPruned<S>(c: Config<S>, p: Peer<S>): Peer<S> {
    p.(snapshots := SnapshotsFrom(p.snapshots, Low(p.next, c.Kept())))
  }

  // Step again up to a target, on the inputs recorded now.
  function ReplayedTo<S>(c: Config<S>, p: Peer<S>, target: nat): Peer<S>
    decreases target - p.next
  {
    if p.next >= target then p else ReplayedTo(c, Stepped(c, p), target)
  }

  ghost predicate SnapshotMissing<S>(p: Peer<S>) {
    p.requested.Some? && FindSnapshot(p.snapshots, p.requested.value).None?
  }

  function Replayed<S>(c: Config<S>, p: Peer<S>): Peer<S>
    requires !SnapshotMissing(p) && (p.requested.Some? ==> p.requested.value <= |p.used|)
  {
    if p.requested.None? then p else SnapshotsPruned(c, ReplayedTo(c, Restored(p), p.next))
  }

  function HistoryCleared<S>(c: Config<S>, p: Peer<S>): Peer<S> {
    if p.next > c.History() then p.(table := KeptFrom(p.table, p.next - c.History())) else p
  }

  /** Any store keeps the invariant once its mismatch has been turned into a request. */
  lemma StoreKeeps<S>(c: Config<S>, p: Peer<S>, r: Record)
    requires Consistent(c, p, p.next)
    ensures Consistent(c, RecordStored(p, r), p.next)
  {
    var q := RecordStored(p, r);
    var mismatch := Outcome(p.table, r).mismatchFrame;
    MismatchIsAChangedInput(p.table, r);
    hide Stored, Outcome, Fold, FindSnapshot;
    forall f | c.From(p.next, c.History()) <= f < p.next
      ensures AllPresent(c, q.table, f)
      ensures f < Clean(q) ==> q.used[f] == InputsAt(c, q.table, f)
    {
      assert AllPresent(c, p.table, f);
      StoreElsewhere(c, p.table, r, f);
    }
  }

  /**
   A record makes the peer ask for a rollback exactly if it changes an input recorded for a frame
   that was stepped, and the earliest such frame is the one asked for.
   */
  lemma AsksExactly<S>(p: Peer<S>, r: Record)
    requires Keyed(p.table)
    ensures var k, q := r.KeyOf(), RecordStored(p, r);
            q.requested ==
            if k in p.table && k in q.table && p.table[k].input != q.table[k].input &&
               r.frame < p.next && (p.requested.None? || r.frame < p.requested.value)
            then Some(r.frame) else p.requested
  {
    MismatchIsAChangedInput(p.table, r);
    hide Stored, Outcome;
  }

  // A store leaves the inputs of a complete frame alone, or reports that frame.
  lemma StoreElsewhere<S>(c: Config<S>, table: Table, r: Record, f: nat)
    requires Keyed(table) && AllPresent(c, table, f)
    ensures Keyed(Stored(table, r)) && AllPresent(c, Stored(table, r), f)
    ensures Outcome(table, r).mismatchFrame == Some(f) || InputsAt(c, Stored(table, r), f) == InputsAt(c, table, f)
  {
  }

  /** The snapshot of a requested frame is there exactly inside the snapshot window. */
  lemma SnapshotThere<S>(c: Config<S>, p: Peer<S>)
    requires AtRest(c, p) && p.requested.Some?
    ensures FindSnapshot(p.snapshots, p.requested.value).Some? <==> p.requested.value >= c.From(p.next, c.Kept())
  {
  }

  lemma FoldOfPrefix<S>(c: Config<S>, used: seq<seq<InputFrame>>, f: nat, g: nat)
    requires f <= g <= |used|
    ensures used[..g][..f] == used[..f]
  {
  }

  /** Restoring it turns the peer into one that replays up to where it was. */
  lemma RestoreKeeps<S>(c: Config<S>, p: Peer<S>)
    requires AtRest(c, p) && p.requested.Some? && p.requested.value >= c.From(p.next, c.Kept())
    ensures FindSnapshot(p.snapshots, p.requested.value).Some? && p.requested.value <= |p.used|
    ensures Consistent(c, Restored(p), p.next)
  {
    var q := Restored(p);
    hide Fold, FindSnapshot, AllPresent, InputsAt;
    forall f: nat | f <= q.next ensures q.used[..f] == p.used[..f] {
      FoldOfPrefix(c, p.used, f, q.next);
    }
  }

  /** Saving the snapshot and stepping a complete frame goes on with the replay, or to a new frame. */
  lemma StepKeeps<S>(c: Config<S>, p: Peer<S>, target: nat)
    requires Consistent(c, p, target) && p.requested.None? && AllPresent(c, p.table, p.next)
    ensures Consistent(c, Stepped(c, p), if p.next < target then target else target + 1)
  {
    var q, next := Stepped(c, p), if p.next < target then target else target + 1;
    FoldSteps(c, p.used, InputsAt(c, p.table, p.next));
    hide Fold, FindSnapshot, WithSnapshot, AllPresent, InputsAt;
    forall f: nat ensures FindSnapshot(q.snapshots, f).Some? ==> c.base <= f {
      FindSaved(p.snapshots, p.next, p.state, f);
    }
    forall f | c.From(next, c.Kept()) <= f < next
      ensures FindSnapshot(q.snapshots, f).Some?
      ensures f < q.next ==> FindSnapshot(q.snapshots, f) == Some(Fold(c, q.used[..f]))
    {
      FindSaved(p.snapshots, p.next, p.state, f);
      if f < q.next {
        assert q.used[..f] == p.used[..f];
        assert p.used[..p.next] == p.used;
      }
    }
    forall f | c.From(next, c.History()) <= f < q.next ensures q.used[f] == InputsAt(c, q.table, f) {
      if f < p.next { assert q.used[f] == p.used[f]; }
    }
  }

  lemma FoldSteps<S>(c: Config<S>, used: seq<seq<InputFrame>>, inputs: seq<InputFrame>)
    ensures Fold(c, used + [inputs]) == c.tick(Fold(c, used), inputs)
  {
  }

  lemma {:induction false} FindKept<S>(snapshots: seq<Snapshot<S>>, first: nat, f: nat)
    ensures FindSnapshot(SnapshotsFrom(snapshots, first), f) == if f < first then None else FindSnapshot(snapshots, f)
  {
    if snapshots != [] {
      var front, last := snapshots[..|snapshots| - 1], snapshots[|snapshots| - 1];
      FindKept(front, first, f);
      assert snapshots == front + [last];
      FindAppended(front, last, f);
      FindAppended(SnapshotsFrom(front, first), last, f);
    }
  }

  lemma {:induction false} FindAppended<S>(snapshots: seq<Snapshot<S>>, last: Snapshot<S>, f: nat)
    ensures FindSnapshot(snapshots + [last], f) ==
            if FindSnapshot(snapshots, f).Some? then FindSnapshot(snapshots, f)
            else if last.frame == f then Some(last.state) else None
  {
    if snapshots != [] {
      assert (snapshots + [last])[1..] == snapshots[1..] + [last];
      FindAppended(snapshots[1..], last, f);
    }
  }

  /** Pruning and clearing drop only what lies outside the windows. */
  lemma PruneKeeps<S>(c: Config<S>, p: Peer<S>)
    requires Consistent(c, p, p.next)
    ensures AtRest(c, SnapshotsPruned(c, p))
  {
    var q := SnapshotsPruned(c, p);
    forall f: nat
      ensures FindSnapshot(q.snapshots, f) == if f < Low(p.next, c.Kept()) then None else FindSnapshot(p.snapshots, f)
    {
      FindKept(p.snapshots, Low(p.next, c.Kept()), f);
    }
    hide Fold, FindSnapshot, SnapshotsFrom, AllPresent, InputsAt;
  }

  lemma ClearKeeps<S>(c: Config<S>, p: Peer<S>)
    requires Consistent(c, p, p.next)
    ensures Consistent(c, HistoryCleared(c, p), p.next)
  {
    var q := HistoryCleared(c, p);
    hide Fold, FindSnapshot;
    forall f | c.From(p.next, c.History()) <= f < p.next
      ensures AllPresent(c, q.table, f) && InputsAt(c, q.table, f) == InputsAt(c, p.table, f)
    {
      assert AllPresent(c, p.table, f);
    }
  }

  // New records beside the ones that are there.
  ghost predicate Extends(table: Table, longer: Table) {
    Keyed(longer) && forall k :: k in table ==> k in longer && longer[k] == table[k]
  }

  lemma ExtendKeeps<S>(c: Config<S>, p: Peer<S>, longer: Table, target: nat)
    requires Consistent(c, p, target) && Extends(p.table, longer)
    ensures Consistent(c, p.(table := longer), target)
  {
    hide Fold, FindSnapshot;
    forall f | c.From(target, c.History()) <= f < target
      ensures AllPresent(c, longer, f) && InputsAt(c, longer, f) == InputsAt(c, p.table, f)
    {
      assert AllPresent(c, p.table, f);
    }
  }

  // ----- the truth -----

  // What the host decided each player's input to be.
  type Truth = (nat, nat) -> InputFrame

  function TruthAt<S>(c: Config<S>, truth: Truth, frame: nat): seq<InputFrame> {
    seq(|c.players|, i requires 0 <= i < |c.players| => truth(c.players[i], frame))
  }

  function TruthUpTo<S>(c: Config<S>, truth: Truth, n: nat): seq<seq<InputFrame>> {
    seq(n, f requires 0 <= f < n => TruthAt(c, truth, f))
  }

  ghost predicate HonestHost(table: Table, truth: Truth) {
    forall k :: k in table && table[k].canonical ==> table[k].input == truth(k.playerId, k.frame)
  }

  ghost predicate Confirmed<S>(c: Config<S>, table: Table, frame: nat) {
    forall i :: 0 <= i < |c.players| ==>
      Key(c.players[i], frame) in table && table[Key(c.players[i], frame)].canonical
  }

  // The frames that have left the input window were stepped on the truth.
  ghost predicate PastIsTrue<S>(c: Config<S>, p: Peer<S>, truth: Truth) {
    forall f :: 0 <= f < c.From(p.next, c.History()) && f < |p.used| ==> p.used[f] == TruthAt(c, truth, f)
  }

  lemma ConfirmedIsTrue<S>(c: Config<S>, table: Table, truth: Truth, f: nat)
    requires HonestHost(table, truth) && Confirmed(c, table, f)
    ensures InputsAt(c, table, f) == TruthAt(c, truth, f)
  {
  }

  /** With nothing requested and the window confirmed, the inputs used are the truth exactly if the past is. */
  lemma UsedIsTruth<S>(c: Config<S>, p: Peer<S>, truth: Truth)
    requires AtRest(c, p) && p.requested.None? && HonestHost(p.table, truth)
    requires forall f :: c.From(p.next, c.History()) <= f < p.next ==> Confirmed(c, p.table, f)
    ensures p.used == TruthUpTo(c, truth, p.next) <==> PastIsTrue(c, p, truth)
  {
    hide Fold, FindSnapshot, InputsAt, TruthAt;
    if PastIsTrue(c, p, truth) {
      forall f: nat | f < p.next ensures p.used[f] == TruthAt(c, truth, f) {
        if f >= c.From(p.next, c.History()) { ConfirmedIsTrue(c, p.table, truth, f); }
      }
      assert p.used == TruthUpTo(c, truth, p.next);
    }
  }

  /** Then the state is the fold of the truth. */
  lemma Converged<S>(c: Config<S>, p: Peer<S>, truth: Truth)
    requires AtRest(c, p) && p.requested.None? && HonestHost(p.table, truth) && PastIsTrue(c, p, truth)
    requires forall f :: c.From(p.next, c.History()) <= f < p.next ==> Confirmed(c, p.table, f)
    ensures p.state == Fold(c, TruthUpTo(c, truth, p.next))
  {
    UsedIsTruth(c, p, truth);
  }

  // ----- why the window is enough -----

  // The player's last frame that is not a prediction is near enough to step the next one.
  ghost predicate NearEnough<S>(c: Config<S>, table: Table, playerId: nat, next: nat) {
    exists f: nat :: IsLatest(table, playerId, f) && f >= c.delay && next <= f - c.delay + c.window
  }

  ghost predicate IsLatest(table: Table, playerId: nat, f: nat) {
    && Key(playerId, f) in table && !table[Key(playerId, f)].predicted
    && forall k :: k in table && k.playerId == playerId && !table[k].predicted ==> k.frame <= f
  }

  ghost predicate CanStep<S>(c: Config<S>, table: Table, next: nat) {
    forall i :: 0 <= i < |c.players| && c.players[i] !in c.locals ==> NearEnough(c, table, c.players[i], next)
  }

  // The same, written out.
  lemma CanStepSays<S>(c: Config<S>, table: Table, next: nat)
    ensures CanStep(c, table, next) <==>
            forall p :: p in c.players && p !in c.locals ==>
              exists f: nat :: Key(p, f) in table && !table[Key(p, f)].predicted &&
                f >= c.delay && next + c.delay <= f + c.window &&
                forall g: nat :: g > f && Key(p, g) in table ==> table[Key(p, g)].predicted
  {
    forall p: nat ensures NearEnough(c, table, p, next) <==>
      exists f: nat :: Key(p, f) in table && !table[Key(p, f)].predicted &&
        f >= c.delay && next + c.delay <= f + c.window &&
        forall g: nat :: g > f && Key(p, g) in table ==> table[Key(p, g)].predicted
    {
      forall f: nat ensures IsLatest(table, p, f) <==>
        Key(p, f) in table && !table[Key(p, f)].predicted &&
        forall g: nat :: g > f && Key(p, g) in table ==> table[Key(p, g)].predicted
      {
        assert forall k :: k in table && k.playerId == p ==> k == Key(p, k.frame);
      }
    }
    hide NearEnough;
  }

  // Where a window of frames begins, written out.
  lemma FromSays<S>(c: Config<S>, next: nat, f: nat)
    ensures f >= c.From(next, c.Kept()) <==> f >= c.base && f + c.window + 4 >= next
    ensures f >= Low(next, c.History()) <==>
            if c.window + 4 > 12 then f + c.window + 4 >= next else f + 12 >= next
  {
  }

  // A step keeps the past true if the frame that leaves is confirmed.
  lemma StepKeepsPast<S>(c: Config<S>, p: Peer<S>, truth: Truth)
    requires AtRest(c, p) && p.requested.None? && HonestHost(p.table, truth) && PastIsTrue(c, p, truth)
    requires LeavesConfirmed(c, p)
    ensures PastIsTrue(c, Stepped(c, p), truth)
  {
  }

  // At rest, with the host's records honest and the past true.
  ghost predicate Faithful<S>(c: Config<S>, p: Peer<S>, truth: Truth) {
    AtRest(c, p) && HonestHost(p.table, truth) && PastIsTrue(c, p, truth)
  }

  function Other(input: InputFrame): InputFrame { input.(left := !input.left) }

  // The truth that differs from another at one player and frame.
  function ChangedAt(truth: Truth, playerId: nat, frame: nat, input: InputFrame): Truth {
    (p: nat, f: nat) => if p == playerId && f == frame then input else truth(p, f)
  }

  // An unconfirmed input may still turn out otherwise, and then the step was wrong.
  lemma UnconfirmedMayBeWrong<S>(c: Config<S>, p: Peer<S>, truth: Truth, i: nat)
    requires Faithful(c, p, truth) && p.requested.None? && p.next >= c.base + c.History() && i < |c.players|
    requires var k := Key(c.players[i], p.next - c.History()); k !in p.table || !p.table[k].canonical
    ensures exists t: Truth :: Faithful(c, p, t) && !PastIsTrue(c, Stepped(c, p), t)
  {
    var f := p.next - c.History();
    var k := Key(c.players[i], f);
    var t := ChangedAt(truth, k.playerId, f, Other(InputOf(p.table, k.playerId, f)));
    assert AtRest(c, p) && p.used[f] == InputsAt(c, p.table, f);
    assert HonestHost(p.table, t);
    assert PastIsTrue(c, p, t) by {
      forall g | 0 <= g < c.From(p.next, c.History()) && g < |p.used| ensures p.used[g] == TruthAt(c, t, g) {
        assert p.used[g] == TruthAt(c, truth, g);
      }
    }
    assert Faithful(c, p, t);
    hide AtRest, HonestHost, Faithful;
    var q := Stepped(c, p);
    assert q.used[f] == InputsAt(c, p.table, f) && f < c.From(q.next, c.History()) && f < |q.used|;
    assert InputsAt(c, p.table, f)[i] != TruthAt(c, t, f)[i];
    assert !PastIsTrue(c, q, t);
  }

  /**
   The exact condition: whatever the host may yet decide, stepping the next frame leaves a true
   past behind exactly if the frame that leaves the window is confirmed.
   */
  lemma StepKeepsPastExactly<S>(c: Config<S>, p: Peer<S>, truth: Truth)
    requires Faithful(c, p, truth) && p.requested.None? && p.next >= c.base + c.History()
    ensures (forall t: Truth :: Faithful(c, p, t) ==> PastIsTrue(c, Stepped(c, p), t))
            <==> Confirmed(c, p.table, p.next - c.History())
  {
    if Confirmed(c, p.table, p.next - c.History()) {
      forall t: Truth | Faithful(c, p, t) ensures PastIsTrue(c, Stepped(c, p), t) {
        StepKeepsPast(c, p, t);
      }
    } else {
      var i :| 0 <= i < |c.players| && var k := Key(c.players[i], p.next - c.History());
                                       k !in p.table || !p.table[k].canonical;
      UnconfirmedMayBeWrong(c, p, truth, i);
    }
  }

  // ----- replays, predictions and new frames -----

  lemma {:induction false} ReplayToKeeps<S>(c: Config<S>, p: Peer<S>, target: nat)
    requires Consistent(c, p, target) && p.requested.None? && c.From(target, c.Kept()) <= p.next
    ensures var q := ReplayedTo(c, p, target);
            Consistent(c, q, target) && q.requested.None? && q.next == target && q.table == p.table && p.used <= q.used
    decreases target - p.next
  {
    if p.next < target {
      ReplayPresent(c, p, target);
      StepKeeps(c, p, target);
      assert p.used <= Stepped(c, p).used && Stepped(c, p).table == p.table;
      hide Consistent, AllPresent, Stepped;
      assert Stepped(c, p).next == p.next + 1 && Stepped(c, p).requested.None? by { StepCounts(c, p); }
      ReplayToKeeps(c, Stepped(c, p), target);
    }
  }

  lemma StepCounts<S>(c: Config<S>, p: Peer<S>)
    ensures Stepped(c, p).next == p.next + 1 && Stepped(c, p).requested == p.requested
  {
  }

  /** A replay comes back to where it was, repaired, and leaves alone what is before the snapshot window. */
  lemma ReplayedKeeps<S>(c: Config<S>, p: Peer<S>)
    requires AtRest(c, p) && (p.requested.Some? ==> p.requested.value >= c.From(p.next, c.Kept()))
    ensures !SnapshotMissing(p) && (p.requested.Some? ==> p.requested.value <= |p.used|)
    ensures var q := Replayed(c, p);
            AtRest(c, q) && q.requested.None? && q.next == p.next && q.table == p.table &&
            |q.used| == |p.used| && Shared(p.used, q.used, c.From(p.next, c.Kept()))
  {
    if p.requested.Some? {
      RestoreKeeps(c, p);
      var r := Restored(p);
      ReplayToKeeps(c, r, p.next);
      PruneKeeps(c, ReplayedTo(c, r, p.next));
      var low := c.From(p.next, c.Kept());
      assert r.used[..low] == p.used[..low] && ReplayedTo(c, r, p.next).used[..low] == r.used[..low];
      hide Stepped, AllPresent, FindSnapshot;
    }
  }

  // Predictions for remote players at a frame, each repeating the player's last actual input.
  ghost predicate Predicts<S>(c: Config<S>, table: Table, frame: nat, longer: Table) {
    && Extends(table, longer)
    && forall k :: k in longer && k !in table ==>
         k.frame == frame && k.playerId !in c.locals && longer[k].predicted && !longer[k].canonical &&
         Repeats(table, k.playerId, frame, longer[k].input)
  }

  // The new frame, with the trimming after it.
  function NewFrame<S>(c: Config<S>, p: Peer<S>): Peer<S> {
    SnapshotsPruned(c, HistoryCleared(c, Stepped(c, p)))
  }

  datatype Prepared = Stepping | Waiting | Resync

  // What preparing the next frame may do.
  ghost predicate PreparedTo<S>(c: Config<S>, p: Peer<S>, result: Prepared, q: Peer<S>) {
    if !CanStep(c, p.table, p.next) then result == Waiting && q == p
    else if SnapshotMissing(p) then result == Resync && q == p.(requested := None)
    else (p.requested.Some? ==> p.requested.value <= |p.used|) && BuiltTo(c, Replayed(c, p), result, q)
  }

  ghost predicate BuiltTo<S>(c: Config<S>, r: Peer<S>, result: Prepared, q: Peer<S>) {
    exists longer :: Predicts(c, r.table, r.next, longer) && BuiltWith(c, r, longer, result, q)
  }

  ghost predicate BuiltWith<S>(c: Config<S>, r: Peer<S>, longer: Table, result: Prepared, q: Peer<S>) {
    if LocalsPresent(c, r.table, r.next)
    then result == Stepping && AllPresent(c, longer, r.next) && q == NewFrame(c, r.(table := longer))
    else result == Waiting && q == r.(table := longer)
  }

  // New predictions leave a peer at rest, and the truth alone.
  lemma ExtendRests<S>(c: Config<S>, p: Peer<S>, longer: Table, truth: Truth)
    requires AtRest(c, p) && Extends(p.table, longer)
    requires forall k :: k in longer && k !in p.table ==> !longer[k].canonical
    ensures AtRest(c, p.(table := longer))
    ensures Faithful(c, p, truth) ==> Faithful(c, p.(table := longer), truth)
    ensures forall f :: Confirmed(c, p.table, f) ==> Confirmed(c, longer, f)
  {
    ExtendKeeps(c, p, longer, p.next);
    hide Consistent, FindSnapshot;
  }

  lemma NewFrameRests<S>(c: Config<S>, p: Peer<S>, truth: Truth)
    requires AtRest(c, p) && p.requested.None? && AllPresent(c, p.table, p.next)
    ensures var q := NewFrame(c, p);
            && AtRest(c, q) && q.requested.None? && q.next == p.next + 1
    ensures Faithful(c, p, truth) && LeavesConfirmed(c, p) ==> Faithful(c, NewFrame(c, p), truth)
  {
    StepKeeps(c, p, p.next);
    ClearKeeps(c, Stepped(c, p));
    PruneKeeps(c, HistoryCleared(c, Stepped(c, p)));
    if Faithful(c, p, truth) && LeavesConfirmed(c, p) {
      StepKeepsPast(c, p, truth);
    }
    hide AtRest, Confirmed, InputsAt, Fold, TruthAt;
  }

  // A replay that leaves the past and the table alone keeps the past true.
  lemma ReplayFaithful<S>(c: Config<S>, p: Peer<S>, q: Peer<S>, truth: Truth)
    requires Faithful(c, p, truth) && AtRest(c, q) && q.table == p.table && q.next == p.next && |q.used| == |p.used|
    requires Shared(p.used, q.used, c.From(p.next, c.Kept()))
    ensures Faithful(c, q, truth)
  {
  }

  lemma NewFrameRecent<S>(c: Config<S>, table: Table, p: Peer<S>)
    requires Extends(table, p.table)
    requires forall k :: k in p.table && k !in table ==>
               p.table[k].predicted && !p.table[k].canonical && k.playerId !in c.locals && k.frame == p.next
    ensures var q := NewFrame(c, p);
            && Recent(c, table, q.table, Low(q.next, c.History()), p.next)
            && Trimmed(c, q)
  {
  }

  ghost predicate HonestRecords(records: seq<Record>, truth: Truth) {
    forall i :: 0 <= i < |records| && records[i].canonical ==>
      records[i].input == truth(records[i].playerId, records[i].frame)
  }

  lemma StoreHonestly(table: Table, r: Record, truth: Truth)
    requires r.canonical ==> r.input == truth(r.playerId, r.frame)
    ensures HonestHost(table, truth) ==> HonestHost(Stored(table, r), truth)
  {
  }

  lemma LatestDecides<S>(c: Config<S>, table: Table, playerId: nat, next: nat, latest: Option<nat>)
    requires latest.Some? ==> Key(playerId, latest.value) in table && !table[Key(playerId, latest.value)].predicted
    requires forall k :: k in table && k.playerId == playerId && !table[k].predicted ==>
               latest.Some? && k.frame <= latest.value
    ensures NearEnough(c, table, playerId, next) <==>
            latest.Some? && latest.value >= c.delay && next <= latest.value - c.delay + c.window
  {
    if latest.Some? { assert IsLatest(table, playerId, latest.value); }
  }

  lemma ReplayPresent<S>(c: Config<S>, p: Peer<S>, target: nat)
    requires Consistent(c, p, target) && p.requested.None? && c.From(target, c.Kept()) <= p.next < target
    ensures AllPresent(c, p.table, p.next)
  {
  }

  // What a prepared frame leaves: nothing that has left the windows is stepped again, the records
  // of the window stay, and the past stays true if the frame that may leave is confirmed.
  ghost predicate PreparedWell<S>(c: Config<S>, p: Peer<S>, result: Prepared, q: Peer<S>, truth: Truth) {
    && AtRest(c, q) && q.next == p.next + (if result == Stepping then 1 else 0)
    && (CanStep(c, p.table, p.next) || p.requested.None? ==> q.requested.None?)
    && (q.requested == p.requested || q.requested.None?)
    && Shared(p.used, q.used, c.From(p.next, c.Kept()))
    && Recent(c, p.table, q.table, Low(q.next, c.History()), p.next)
    && (result == Stepping ==> Trimmed(c, q))
    && (Faithful(c, p, truth) && (CanStep(c, p.table, p.next) ==> LeavesConfirmed(c, p)) ==> Faithful(c, q, truth))
  }

  ghost predicate Trimmed<S>(c: Config<S>, p: Peer<S>) {
    forall k :: k in p.table ==> k.frame >= Low(p.next, c.History())
  }

  // The frame that leaves the input window with the next step is confirmed.
  ghost predicate LeavesConfirmed<S>(c: Config<S>, p: Peer<S>) {
    p.next >= c.base + c.History() ==> Confirmed(c, p.table, p.next - c.History())
  }

  // The same for a peer that has replayed.
  ghost predicate BuiltWell<S>(c: Config<S>, r: Peer<S>, result: Prepared, q: Peer<S>, truth: Truth) {
    && result == (if LocalsPresent(c, r.table, r.next) then Stepping else Waiting)
    && AtRest(c, q) && q.requested.None? && r.used <= q.used
    && q.next == r.next + (if result == Stepping then 1 else 0)
    && Recent(c, r.table, q.table, Low(q.next, c.History()), r.next)
    && (result == Stepping ==> Trimmed(c, q))
    && (Faithful(c, r, truth) && LeavesConfirmed(c, r) ==> Faithful(c, q, truth))
  }

  /** Waiting, resync and stepping happen exactly when they should. */
  lemma PreparedWhen<S>(c: Config<S>, p: Peer<S>, result: Prepared, q: Peer<S>)
    requires AtRest(c, p) && PreparedTo(c, p, result, q)
    ensures result == Resync <==>
            CanStep(c, p.table, p.next) && p.requested.Some? && p.requested.value < c.From(p.next, c.Kept())
    ensures result == Stepping <==>
            result != Resync && CanStep(c, p.table, p.next) && LocalsPresent(c, p.table, p.next)
  {
    if p.requested.Some? { SnapshotThere(c, p); }
    hide AtRest, CanStep, LocalsPresent, BuiltTo, Replayed;
    if CanStep(c, p.table, p.next) && !SnapshotMissing(p) {
      ReplayedThenBuilt(c, p, result, q, (_, _) => NEUTRAL);
    }
  }

  /** And what is kept is right. */
  lemma PreparedKeeps<S>(c: Config<S>, p: Peer<S>, result: Prepared, q: Peer<S>, truth: Truth)
    requires AtRest(c, p) && PreparedTo(c, p, result, q) && result != Resync
    ensures PreparedWell(c, p, result, q, truth)
  {
    if p.requested.Some? { SnapshotThere(c, p); }
    UsedCounts(c, p);
    hide AtRest, CanStep, LocalsPresent, Faithful, LeavesConfirmed, BuiltTo, Replayed;
    if CanStep(c, p.table, p.next) {
      ReplayedThenBuilt(c, p, result, q, truth);
    }
  }

  lemma PreparedRests<S>(c: Config<S>, p: Peer<S>, result: Prepared, q: Peer<S>, truth: Truth)
    requires PreparedWell(c, p, result, q, truth)
    ensures AtRest(c, q)
  {
  }

  lemma PreparedLeaves<S>(c: Config<S>, p: Peer<S>, result: Prepared, q: Peer<S>, truth: Truth)
    requires PreparedWell(c, p, result, q, truth)
    ensures result == Stepping ==>
              && q.next == p.next + 1
              && (forall k :: k in q.table ==>
                    k.frame + (if c.window + 4 > 12 then c.window + 4 else 12) >= q.next)
              && forall f: nat :: f < q.next ==>
                   (FindSnapshot(q.snapshots, f).Some? <==> f >= c.base && f + c.window + 4 >= q.next)
  {
    hide FindSnapshot, Fold, AllPresent, InputsAt, CanStep, Faithful, Shared, Recent, LeavesConfirmed;
  }

  lemma UsedCounts<S>(c: Config<S>, p: Peer<S>)
    requires AtRest(c, p)
    ensures |p.used| == p.next
  {
  }

  lemma ReplayedThenBuilt<S>(c: Config<S>, p: Peer<S>, result: Prepared, q: Peer<S>, truth: Truth)
    requires AtRest(c, p) && (p.requested.Some? ==> p.requested.value >= c.From(p.next, c.Kept()))
    requires CanStep(c, p.table, p.next) && !SnapshotMissing(p)
    requires (p.requested.Some? ==> p.requested.value <= |p.used|) && BuiltTo(c, Replayed(c, p), result, q)
    ensures result == (if LocalsPresent(c, p.table, p.next) then Stepping else Waiting)
    ensures PreparedWell(c, p, result, q, truth) && q.requested.None?
  {
    hide AtRest, Faithful, Confirmed, LocalsPresent, Recent, BuiltTo, Replayed, Shared, CanStep, Low, Trimmed;
    ReplayedKeeps(c, p);
    var r := Replayed(c, p);
    if Faithful(c, p, truth) { ReplayFaithful(c, p, r, truth); }
    BuiltKeeps(c, r, result, q, truth);
    ShareOn(p.used, r.used, q.used, c.From(p.next, c.Kept()));
  }

  lemma ShareOn(a: seq<seq<InputFrame>>, b: seq<seq<InputFrame>>, d: seq<seq<InputFrame>>, n: nat)
    requires Shared(a, b, n) && b <= d
    ensures Shared(a, d, n)
  {
  }

  lemma BuiltKeeps<S>(c: Config<S>, r: Peer<S>, result: Prepared, q: Peer<S>, truth: Truth)
    requires AtRest(c, r) && r.requested.None? && BuiltTo(c, r, result, q)
    ensures BuiltWell(c, r, result, q, truth)
  {
    hide Predicts, BuiltWith, AtRest, BuiltWell;
    var longer :| Predicts(c, r.table, r.next, longer) && BuiltWith(c, r, longer, result, q);
    BuiltWithKeeps(c, r, longer, result, q, truth);
  }

  lemma BuiltWithKeeps<S>(c: Config<S>, r: Peer<S>, longer: Table, result: Prepared, q: Peer<S>, truth: Truth)
    requires AtRest(c, r) && r.requested.None? && Predicts(c, r.table, r.next, longer) &&
             BuiltWith(c, r, longer, result, q)
    ensures BuiltWell(c, r, result, q, truth)
  {
    hide AtRest, Faithful, Confirmed, AllPresent, LocalsPresent, NewFrame, Repeats, Low;
    ExtendRests(c, r, longer, truth);
    if LocalsPresent(c, r.table, r.next) {
      NewFrameRests(c, r.(table := longer), truth);
      NewFrameRecent(c, r.table, r.(table := longer));
      NewFrameUses(c, r.(table := longer));
    }
  }

  lemma NewFrameUses<S>(c: Config<S>, p: Peer<S>)
    ensures NewFrame(c, p).used == p.used + [InputsAt(c, p.table, p.next)]
  {
  }
}
