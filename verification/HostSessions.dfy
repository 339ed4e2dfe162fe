/**
 The host's side of the stream: it makes inputs canonical as it steps, never changes them
 again, and sends out bursts of packets. It may be asked for a rollback all the same.
 */
module HostSessions {
  import opened Options
  import opened InputFrames
  import opened InputBuffer
  import opened PeerRollback
  import opened HostStream
  import opened PeerSessions
  import opened Snapshots

  /**
   The host's buffer against what it decided: every frame of its window that was stepped is
   canonical for every player, a canonical record is what was decided, and none is beyond the
   next frame or before the window.
   */
  ghost predicate HostHolds<S>(c: Config<S>, host: Host, table: Table, next: nat) {
    && (forall f :: Low(next, c.History()) <= f < next ==> Confirmed(c, table, f))
    && forall k :: k in table && table[k].canonical ==>
         table[k] == host.Canon(k.playerId, k.frame) && Low(next, c.History()) <= k.frame <= next
  }

  // What is decided for a key.
  function Deciding(host: Host, k: Key, r: Record): Host {
    Host((p: nat, f: nat) => if p == k.playerId && f == k.frame then r.input else host.truth(p, f),
         (p: nat, f: nat) =>
           var stamp: nat := if p == k.playerId && f == k.frame then r.sequence else host.stamp(p, f);
           stamp)
  }

  // Two hosts that decided the same before a frame.
  ghost predicate SameBefore(host: Host, other: Host, n: nat) {
    forall p: nat, f: nat :: f < n ==> host.Canon(p, f) == other.Canon(p, f)
  }

  /** Anything but a canonical record leaves what the host decided alone. */
  lemma HearsKeep<S>(c: Config<S>, host: Host, table: Table, next: nat, r: Record)
    requires HostHolds(c, host, table, next) && !r.canonical
    ensures HostHolds(c, host, Stored(table, r), next)
  {
    forall f | Low(next, c.History()) <= f < next ensures Confirmed(c, Stored(table, r), f) {
      assert Confirmed(c, table, f);
    }
  }

  // Making the input of the next frame canonical.
  lemma DecisionKeeps<S>(c: Config<S>, host: Host, table: Table, next: nat, r: Record)
    requires HostHolds(c, host, table, next) && r.frame == next && r.playerId != INVALID_PLAYER_ID
    requires r == Record(r.playerId, next, r.sequence, r.input, false, true, false)
    requires r.KeyOf() in table ==> !table[r.KeyOf()].canonical
    ensures HostHolds(c, Deciding(host, r.KeyOf(), r), Stored(table, r), next)
    ensures SameBefore(host, Deciding(host, r.KeyOf(), r), next)
  {
    forall f | Low(next, c.History()) <= f < next ensures Confirmed(c, Stored(table, r), f) {
      assert Confirmed(c, table, f);
    }
  }

  // The step and the trimming after it.
  lemma SteppedHolds<S>(c: Config<S>, host: Host, table: Table, next: nat)
    requires HostHolds(c, host, table, next) && Confirmed(c, table, next)
    ensures HostHolds(c, host, KeptFrom(table, Low(next + 1, c.History())), next + 1)
  {
    var after := KeptFrom(table, Low(next + 1, c.History()));
    forall f | Low(next + 1, c.History()) <= f < next + 1 ensures Confirmed(c, after, f) {
      assert Confirmed(c, table, f);
    }
  }

  // ----- the burst is what the buffer holds -----

  lemma {:induction false} CollectedRow<S>(c: Config<S>, host: Host, table: Table, next: nat, frame: nat, i: nat)
    requires HostHolds(c, host, table, next) && i <= |c.players|
    ensures Low(next, c.History()) <= frame < next ==>
              CollectedAt(table, true, c.players, frame, i) == Row(c, host, frame)[..i]
    ensures frame < Low(next, c.History()) ==> CollectedAt(table, true, c.players, frame, i) == []
  {
    if i > 0 {
      CollectedRow(c, host, table, next, frame, i - 1);
      if Low(next, c.History()) <= frame < next { assert Confirmed(c, table, frame); }
    }
  }

  lemma {:induction false} CollectedRows<S>(
    c: Config<S>, host: Host, table: Table, next: nat, first: nat, low: nat, n: nat)
    requires HostHolds(c, host, table, next) && first + n <= next && first <= low
    requires low == first || low == Low(next, c.History())
    requires first >= Low(next, c.History()) || low == Low(next, c.History())
    ensures Collected(table, true, c.players, first, n) ==
            Rows(c, host, low, if first + n > low then first + n - low else 0)
  {
    if n > 0 {
      CollectedRows(c, host, table, next, first, low, n - 1);
      CollectedRow(c, host, table, next, first + n - 1, |c.players|);
      var row := Row(c, host, first + n - 1);
      assert row[..|c.players|] == row;
      hide HostHolds;
    }
  }

  /** The records collected for 13 frames are the burst, however many of them the buffer still has. */
  lemma CollectedIsBurst<S>(c: Config<S>, host: Host, table: Table, next: nat)
    requires HostHolds(c, host, table, next) && next > 0
    ensures var first := Low(next, INPUT_HISTORY_FRAMES + 1);
            && Collected(table, true, c.players, first, next - first) == Burst(c, host, next - 1)
            && |Burst(c, host, next - 1)| <= |c.players| * (INPUT_HISTORY_FRAMES + 1)
  {
    var first, low := Low(next, INPUT_HISTORY_FRAMES + 1), First(c, next - 1);
    hide HostHolds, Rows, Collected;
    CollectedRows(c, host, table, next, first, low, next - first);
    RowsLength(c, host, low, next - low);
    MoreFrames(|c.players|, next - low, INPUT_HISTORY_FRAMES + 1);
  }

  lemma {:induction false} RowsLength<S>(c: Config<S>, host: Host, first: nat, n: nat)
    ensures |Rows(c, host, first, n)| == |c.players| * n
  {
    if n > 0 { RowsLength(c, host, first, n - 1); }
  }

  lemma {:induction false} RowsAlike<S>(c: Config<S>, host: Host, other: Host, first: nat, n: nat, next: nat)
    requires SameBefore(host, other, next) && first + n <= next
    ensures Rows(c, host, first, n) == Rows(c, other, first, n)
  {
    if n > 0 {
      RowsAlike(c, host, other, first, n - 1, next);
      assert Row(c, host, first + n - 1) == Row(c, other, first + n - 1);
    }
  }

  /** Later decisions do not change an earlier burst. */
  lemma BurstStands<S>(c: Config<S>, host: Host, other: Host, last: nat, next: nat)
    requires SameBefore(host, other, next) && last < next
    ensures Burst(c, host, last) == Burst(c, other, last)
  {
    RowsAlike(c, host, other, First(c, last), last + 1 - First(c, last), next);
  }

  lemma TruthAlike<S>(c: Config<S>, host: Host, other: Host, n: nat)
    requires SameBefore(host, other, n)
    ensures TruthUpTo(c, host.truth, n) == TruthUpTo(c, other.truth, n)
  {
    forall p: nat, f: nat | f < n ensures host.truth(p, f) == other.truth(p, f) {
      assert host.Canon(p, f) == other.Canon(p, f);
    }
    forall f: nat | f < n ensures TruthAt(c, host.truth, f) == TruthAt(c, other.truth, f) {
      assert |TruthAt(c, host.truth, f)| == |TruthAt(c, other.truth, f)|;
    }
  }

  lemma FoldsOn<S>(c: Config<S>, truth: Truth, n: nat)
    ensures Fold(c, TruthUpTo(c, truth, n + 1)) == c.tick(Fold(c, TruthUpTo(c, truth, n)), TruthAt(c, truth, n))
  {
    assert TruthUpTo(c, truth, n + 1) == TruthUpTo(c, truth, n) + [TruthAt(c, truth, n)];
  }

  lemma DecidedInputs<S>(c: Config<S>, host: Host, table: Table, next: nat, frame: nat)
    requires HostHolds(c, host, table, next) && Confirmed(c, table, frame)
    ensures InputsAt(c, table, frame) == TruthAt(c, host.truth, frame)
  {
  }

  /**
   The host at any time: but for what it is asked for, a peer at rest whose inputs are what it
   decided and whose state is the fold of that.
   */
  ghost predicate HostRight<S>(c: Config<S>, host: Host, p: Peer<S>) {
    && AtRest(c, p.(requested := None)) && HostHolds(c, host, p.table, p.next) && c.base == 0
    && p.used == TruthUpTo(c, host.truth, p.next) && (p.requested.Some? ==> p.requested.value < p.next)
  }

  lemma HostRests<S>(c: Config<S>, host: Host, p: Peer<S>)
    requires HostRight(c, host, p)
    ensures AtRest(c, p) && p.state == Fold(c, TruthUpTo(c, host.truth, p.next))
  {
  }

  // Another table with the same inputs in the window.
  lemma TableSwapped<S>(c: Config<S>, p: Peer<S>, table: Table)
    requires AtRest(c, p) && p.requested.None? && Keyed(table)
    requires forall f :: c.From(p.next, c.History()) <= f < p.next ==>
               AllPresent(c, table, f) && InputsAt(c, table, f) == InputsAt(c, p.table, f)
    ensures AtRest(c, p.(table := table))
  {
    hide Fold, FindSnapshot, InputsAt;
  }

  // A store that leaves the canonical records alone leaves the window alone.
  lemma WindowStands<S>(c: Config<S>, host: Host, p: Peer<S>, table: Table)
    requires HostRight(c, host, p) && Keyed(table)
    requires forall k :: k in p.table && p.table[k].canonical ==> k in table && table[k] == p.table[k]
    ensures AtRest(c, p.(requested := None, table := table))
  {
    forall f | c.From(p.next, c.History()) <= f < p.next
      ensures AllPresent(c, table, f) && InputsAt(c, table, f) == InputsAt(c, p.table, f)
    {
      assert Confirmed(c, p.table, f);
    }
    hide AtRest, InputsAt, AllPresent;
    assert Keyed(p.table) by { RestKeyed(c, p.(requested := None)); }
    TableSwapped(c, p.(requested := None), table);
  }

  lemma RestKeyed<S>(c: Config<S>, p: Peer<S>)
    requires AtRest(c, p)
    ensures Keyed(p.table)
  {
  }

  /** Whatever a peer sends, the host's decisions, its inputs and its state stay. */
  lemma HearsRight<S>(c: Config<S>, host: Host, p: Peer<S>, r: Record)
    requires HostRight(c, host, p) && !r.canonical
    ensures HostRight(c, host, RecordStored(p, r))
  {
    RestKeyed(c, p.(requested := None));
    hide AtRest;
    HearsKeep(c, host, p.table, p.next, r);
    StoreKeyed(p.table, r);
    assert forall k :: k in p.table && p.table[k].canonical ==>
           k in Stored(p.table, r) && Stored(p.table, r)[k] == p.table[k];
    WindowStands(c, host, p, Stored(p.table, r));
    hide HostHolds, Stored, TruthUpTo, Outcome;
  }

  lemma StoreKeyed(table: Table, r: Record)
    requires Keyed(table)
    ensures Keyed(Stored(table, r))
  {
  }

  // Another input is recorded, not a decision, and a peer's word for a stepped frame replaces it.
  predicate Replaceable(p: Table, r: Record, next: nat) {
    && r.KeyOf() in p && !p[r.KeyOf()].canonical && r.playerId != INVALID_PLAYER_ID && r.frame < next
    && p[r.KeyOf()].input != r.input && (p[r.KeyOf()].predicted || r.sequence >= p[r.KeyOf()].sequence)
  }

  /**
   Which records of a peer make the host ask for a rollback, or an earlier one: those that change
   an input recorded for a frame it has stepped but not decided. For a player of the session such a
   frame has left the window, and its record was cleared and came again.
   */
  lemma AskedExactly<S>(c: Config<S>, host: Host, p: Peer<S>, r: Record)
    requires HostRight(c, host, p) && !r.canonical && !r.predicted
    ensures RecordStored(p, r).requested != p.requested <==>
            Replaceable(p.table, r, p.next) && (p.requested.None? || r.frame < p.requested.value)
    ensures Replaceable(p.table, r, p.next) && r.playerId in c.players ==> r.frame < Low(p.next, c.History())
  {
    hide AtRest, TruthUpTo;
    var low := Low(p.next, c.History());
    assert low <= r.frame < p.next ==> Confirmed(c, p.table, r.frame);
  }

  /** And what comes of it: the snapshot is gone, so the host starts a resync instead of stepping. */
  lemma LateRecordsStall<S>(c: Config<S>, host: Host, p: Peer<S>, a: Record, b: Record)
    requires HostRight(c, host, p) && p.requested.None? && a.KeyOf() !in p.table && a.KeyOf() == b.KeyOf()
    requires a.playerId in c.players && a.playerId != INVALID_PLAYER_ID && a.frame < Low(p.next, c.History())
    requires !a.canonical && !b.canonical && !a.predicted && !b.predicted
    requires a.input != b.input && a.sequence <= b.sequence
    ensures var q := RecordStored(RecordStored(p, a), b);
            HostRight(c, host, q) && q.requested == Some(a.frame) && SnapshotMissing(q)
  {
    HearsRight(c, host, p, a);
    HearsRight(c, host, RecordStored(p, a), b);
    HostRests(c, host, RecordStored(RecordStored(p, a), b));
    hide AtRest, HostHolds, TruthUpTo;
    SnapshotThere(c, RecordStored(RecordStored(p, a), b));
  }

  /** If there is a snapshot after all, the replay changes neither the inputs nor the state. */
  lemma ReplayIdle<S>(c: Config<S>, host: Host, p: Peer<S>)
    requires HostRight(c, host, p) && !SnapshotMissing(p)
    ensures p.requested.Some? ==> p.requested.value <= |p.used|
    ensures var q := Replayed(c, p);
            && HostRight(c, host, q) && q.requested.None? && q.next == p.next && q.table == p.table
            && q.state == p.state && q.used == p.used
  {
    HostRests(c, host, p);
    if p.requested.Some? { SnapshotThere(c, p); }
    ReplayedKeeps(c, p);
    var q := Replayed(c, p);
    UsedCounts(c, p);
    ReplayedUsed(c, host, p, q);
    RestFold(c, q);
    hide AtRest, Replayed, HostHolds, TruthUpTo;
  }

  lemma RestFold<S>(c: Config<S>, p: Peer<S>)
    requires AtRest(c, p) && p.requested.None?
    ensures p.state == Fold(c, p.used)
  {
  }

  lemma ReplayedUsed<S>(c: Config<S>, host: Host, p: Peer<S>, q: Peer<S>)
    requires HostRight(c, host, p) && AtRest(c, q) && q.requested.None? && q.next == p.next && q.table == p.table
    requires |q.used| == |p.used| == p.next && Shared(p.used, q.used, c.From(p.next, c.Kept()))
    ensures q.used == p.used
  {
    forall f: nat | f < p.next ensures q.used[f] == p.used[f] {
      if f < c.From(p.next, c.Kept()) {
        assert q.used[f] == q.used[..c.From(p.next, c.Kept())][f];
      } else {
        assert Confirmed(c, p.table, f);
        DecidedInputs(c, host, p.table, p.next, f);
        assert q.used[f] == InputsAt(c, q.table, f) && p.used[f] == TruthAt(c, host.truth, f);
      }
    }
  }

  // The inputs of the first i players at a frame, all of them canonical.
  ghost predicate ReadyTo<S>(c: Config<S>, table: Table, frame: nat, inputs: seq<InputFrame>) {
    |inputs| <= |c.players| && forall j :: 0 <= j < |inputs| ==>
      var k := Key(c.players[j], frame);
      k in table && table[k].canonical && table[k].input == inputs[j]
  }

  lemma ReadyNext<S>(c: Config<S>, table: Table, after: Table, frame: nat, inputs: seq<InputFrame>, input: InputFrame)
    requires ReadyTo(c, table, frame, inputs) && |inputs| < |c.players| && after.Keys == table.Keys
    requires var k := Key(c.players[|inputs|], frame);
             && k in table && k in after && after[k].canonical && after[k].input == table[k].input == input
             && forall g :: g in after && g != k ==> after[g] == table[g]
    ensures ReadyTo(c, after, frame, inputs + [input])
  {
  }

  lemma ReadyAll<S>(c: Config<S>, table: Table, frame: nat, inputs: seq<InputFrame>)
    requires ReadyTo(c, table, frame, inputs) && |inputs| == |c.players|
    ensures Confirmed(c, table, frame) && inputs == InputsAt(c, table, frame) && AllPresent(c, table, frame)
  {
  }

  // The same keys, with the same inputs.
  ghost predicate SameInputs(table: Table, after: Table) {
    after.Keys == table.Keys && forall k :: k in table ==> after[k].input == table[k].input
  }

  lemma SameInputsAlways(table: Table)
    ensures SameInputs(table, table)
  {
  }

  lemma SameInputsOn(a: Table, b: Table, d: Table)
    requires SameInputs(a, b) && SameInputs(b, d)
    ensures SameInputs(a, d)
  {
  }

  lemma SameAbsent(table: Table, after: Table, k: Key)
    requires SameInputs(table, after)
    ensures k in table <==> k in after
  {
    assert k in table.Keys <==> k in after.Keys;
  }

  lemma InputsAlike<S>(c: Config<S>, table: Table, after: Table, frame: nat)
    requires SameInputs(table, after)
    ensures InputsAt(c, table, frame) == InputsAt(c, after, frame)
    ensures AllPresent(c, table, frame) <==> AllPresent(c, after, frame)
  {
    forall i | 0 <= i < |c.players| ensures Key(c.players[i], frame) in table <==> Key(c.players[i], frame) in after {
      SameAbsent(table, after, Key(c.players[i], frame));
    }
  }

  lemma SameOn(a: Host, b: Host, d: Host, n: nat)
    requires SameBefore(a, b, n) && SameBefore(b, d, n)
    ensures SameBefore(a, d, n)
  {
    forall p: nat, f: nat | f < n ensures a.Canon(p, f) == d.Canon(p, f) { assert a.Canon(p, f) == b.Canon(p, f); }
  }

  lemma SameAlways(a: Host, n: nat)
    ensures SameBefore(a, a, n)
  {
  }

  lemma ReadyNone<S>(c: Config<S>, table: Table, frame: nat)
    ensures ReadyTo(c, table, frame, [])
  {
  }

  // Deciding one more input, and stepping.
  lemma DecisionRight<S>(c: Config<S>, host: Host, p: Peer<S>, r: Record)
    requires HostRight(c, host, p) && r.frame == p.next && r.playerId != INVALID_PLAYER_ID
    requires r == Record(r.playerId, p.next, r.sequence, r.input, false, true, false)
    requires r.KeyOf() in p.table ==> !p.table[r.KeyOf()].canonical
    ensures var decided := Deciding(host, r.KeyOf(), r);
            HostRight(c, decided, p.(table := Stored(p.table, r))) && SameBefore(host, decided, p.next)
    ensures Stored(p.table, r) == p.table[r.KeyOf() := r]
  {
    RestKeyed(c, p.(requested := None));
    hide AtRest;
    DecisionKeeps(c, host, p.table, p.next, r);
    TruthAlike(c, host, Deciding(host, r.KeyOf(), r), p.next);
    WindowStands(c, host, p, Stored(p.table, r));
    hide HostHolds, TruthUpTo, SameBefore, Deciding;
  }

  lemma StepRight<S>(c: Config<S>, host: Host, p: Peer<S>)
    requires HostRight(c, host, p) && p.requested.None? && Confirmed(c, p.table, p.next)
    ensures HostRight(c, host, NewFrame(c, p)) && NewFrame(c, p).next == p.next + 1
  {
    assert AllPresent(c, p.table, p.next);
    NewFrameUses(c, p);
    NewFrameTable(c, p);
    var q := NewFrame(c, p);
    hide *;
    RightIs(c, host, p);
    assert p == p.(requested := None) && q == q.(requested := None);
    NewFrameRests(c, p, host.truth);
    DecidedInputs(c, host, p.table, p.next, p.next);
    SteppedHolds(c, host, p.table, p.next);
    LongerTruth(c, host.truth, p.next);
    RightIs(c, host, q);
  }

  lemma RightIs<S>(c: Config<S>, host: Host, p: Peer<S>)
    ensures HostRight(c, host, p) <==>
            && AtRest(c, p.(requested := None)) && HostHolds(c, host, p.table, p.next) && c.base == 0
            && p.used == TruthUpTo(c, host.truth, p.next) && (p.requested.Some? ==> p.requested.value < p.next)
  {
    hide AtRest, HostHolds, TruthUpTo;
  }

  lemma LongerTruth<S>(c: Config<S>, truth: Truth, n: nat)
    ensures TruthUpTo(c, truth, n + 1) == TruthUpTo(c, truth, n) + [TruthAt(c, truth, n)]
  {
    hide TruthAt;
  }

  lemma NewFrameTable<S>(c: Config<S>, p: Peer<S>)
    ensures var q := NewFrame(c, p);
            && q.table == KeptFrom(p.table, Low(p.next + 1, c.History()))
            && q.requested == p.requested && q.next == p.next + 1
  {
  }

  // With every input of the next frame canonical, those are its decisions.
  lemma DecidedNow<S>(c: Config<S>, host: Host, p: Peer<S>)
    requires HostRight(c, host, p) && Confirmed(c, p.table, p.next)
    ensures InputsAt(c, p.table, p.next) == TruthAt(c, host.truth, p.next)
  {
    hide AtRest, TruthUpTo;
    DecidedInputs(c, host, p.table, p.next, p.next);
  }

  // A peer's records, the canonical ones ignored.
  function OthersStored<S>(p: Peer<S>, records: seq<Record>): Peer<S> {
    if records == [] then p
    else
      var q, last := OthersStored(p, records[..|records| - 1]), records[|records| - 1];
      if last.canonical then q else RecordStored(q, last)
  }

  // A peer's own record for a key.
  predicate Word(records: seq<Record>, k: Key, i: nat) {
    i < |records| && records[i].KeyOf() == k && !records[i].canonical
  }

  // The last word for it: the latest sequence, and of those the last to come.
  ghost predicate LastWord(records: seq<Record>, k: Key, i: nat) {
    && Word(records, k, i)
    && forall j: nat :: Word(records, k, j) ==>
         records[j].sequence < records[i].sequence || (records[j].sequence == records[i].sequence && j <= i)
  }

  lemma {:induction false} HeardWord<S>(p: Peer<S>, records: seq<Record>, k: Key) returns (w: nat)
    requires k !in p.table && k.playerId != INVALID_PLAYER_ID
    requires forall i :: 0 <= i < |records| ==> !records[i].predicted
    ensures var after := OthersStored(p, records).table;
            && (k in after <==> exists i: nat :: Word(records, k, i))
            && (k in after ==> LastWord(records, k, w) && after[k] == records[w])
  {
    w := 0;
    if records != [] {
      var n := |records| - 1;
      var front, last := records[..n], records[n];
      w := HeardWord(p, front, k);
      var table := OthersStored(p, front).table;
      hide Outcome, OthersStored;
      assert OthersStored(p, records).table == if last.canonical then table else Stored(table, last) by {
        OthersNext(p, records);
      }
      assert forall i: nat :: Word(records, k, i) <==> Word(front, k, i) || (i == n && Word(records, k, n));
      if Word(records, k, n) && (k !in table || last.sequence >= front[w].sequence) { w := n; }
    }
  }

  lemma OthersNext<S>(p: Peer<S>, records: seq<Record>)
    requires records != []
    ensures var n := |records| - 1;
            var table := OthersStored(p, records[..n]).table;
            OthersStored(p, records).table == if records[n].canonical then table else Stored(table, records[n])
  {
  }

  /** What is recorded for a key that was not: the last word of what came, and nothing if nothing came. */
  lemma HeardLast<S>(p: Peer<S>, records: seq<Record>, k: Key)
    requires k !in p.table && k.playerId != INVALID_PLAYER_ID
    requires forall i :: 0 <= i < |records| ==> !records[i].predicted
    ensures var after := OthersStored(p, records).table;
            && (k in after <==> exists i: nat :: LastWord(records, k, i))
            && (forall i: nat :: LastWord(records, k, i) ==> k in after && after[k] == records[i])
  {
    hide OthersStored;
    var w := HeardWord(p, records, k);
  }

  /** So what the host then decides for a player of whom it knew nothing is that player's last word. */
  lemma DecidesHeard<S>(c: Config<S>, p: Peer<S>, records: seq<Record>, i: nat, w: nat)
    requires i < |c.players| && c.players[i] != INVALID_PLAYER_ID && Key(c.players[i], p.next) !in p.table
    requires forall j :: 0 <= j < |records| ==> !records[j].predicted
    requires LastWord(records, Key(c.players[i], p.next), w)
    ensures InputsAt(c, OthersStored(p, records).table, p.next)[i] == records[w].input
  {
    HeardLast(p, records, Key(c.players[i], p.next));
    hide OthersStored, LastWord;
  }

  /** The host's session: the same object as a peer's, with decisions. */
  class HostSession<S> {
    const session: PeerSession<S>
    var nextSequence: nat
    ghost var host: Host

    ghost predicate Valid()
      reads this, session, session.buffer
    {
      session.Valid() && HostRight(session.c, host, session.View())
    }

    constructor (c: Config<S>)
      requires INVALID_PLAYER_ID !in c.players && c.base == 0
      ensures Valid() && fresh(session) && fresh(session.buffer) && session.c == c
      ensures session.View() == Peer(map[], [], None, 0, c.init, [])
    {
      session := new PeerSession(c, c.init, []);
      nextSequence := 1;
      host := Host((_, _) => NEUTRAL, (_, _) => 0);
    }

    /** The peers' inputs: no decision changes, but a request may come of them (see AskedExactly). */
    method HandleInputFrameRecords(records: seq<Record>)
      requires Valid()
      modifies session`requested, session.buffer
      ensures Valid() && session.View() == OthersStored(old(session.View()), records)
    {
      hide HostRight, AtRest, RecordStored;
      for i := 0 to |records|
        invariant Valid() && session.View() == OthersStored(old(session.View()), records[..i])
      {
        assert records[..i + 1][..i] == records[..i];
        if records[i].canonical {
          continue;
        }
        HearsRight(session.c, host, session.View(), records[i]);
        session.TakeRecord(records[i]);
      }
      assert records[..|records|] == records;
    }

    // The input of a player for the next frame, made canonical.
    method StoreHostCanonicalInput(playerId: nat, input: InputFrame)
      requires Valid() && playerId != INVALID_PLAYER_ID
      requires var k := Key(playerId, session.nextFrame);
               k in session.buffer.table && !session.buffer.table[k].canonical && session.buffer.table[k].input == input
      modifies this`host, this`nextSequence, session.buffer
      ensures Valid() && SameBefore(old(host), host, session.nextFrame) && nextSequence == old(nextSequence) + 1
      ensures session.buffer.table == old(session.buffer.table)[Key(playerId, session.nextFrame) :=
                Record(playerId, session.nextFrame, old(nextSequence), input, false, true, false)]
    {
      var canonical := Record(playerId, session.nextFrame, nextSequence, input, false, true, false);
      nextSequence := nextSequence + 1;
      DecisionRight(session.c, host, session.View(), canonical);
      host := Deciding(host, canonical.KeyOf(), canonical);
      hide HostRight, Stored, Outcome, AtRest, Deciding, SameBefore;
      var _ := session.buffer.Store(canonical);
      HostRests(session.c, host, session.View());
    }

    method MakeCanonical(playerId: nat, input: InputFrame)
      requires Valid() && playerId != INVALID_PLAYER_ID
      requires var k := Key(playerId, session.nextFrame);
               k in session.buffer.table && session.buffer.table[k].input == input
      modifies this`host, this`nextSequence, session.buffer
      ensures Valid() && SameBefore(old(host), host, session.nextFrame)
      ensures SameInputs(old(session.buffer.table), session.buffer.table)
      ensures session.buffer.table.Keys == old(session.buffer.table).Keys
      ensures var k := Key(playerId, session.nextFrame);
              && session.buffer.table[k].canonical && session.buffer.table[k].input == input
              && forall g :: g in session.buffer.table && g != k ==>
                   session.buffer.table[g] == old(session.buffer.table)[g]
    {
      SameAlways(host, session.nextFrame);
      hide HostRight, SameBefore, AtRest;
      var record := session.buffer.FindRecord(playerId, session.nextFrame);
      if !record.value.canonical {
        StoreHostCanonicalInput(playerId, input);
      }
    }

    // The inputs of the next frame, all of them canonical, if none is missing.
    method BuildFrameInputs() returns (ready: bool, inputs: seq<InputFrame>)
      requires Valid()
      modifies this`host, this`nextSequence, session.buffer
      ensures Valid() && SameBefore(old(host), host, session.nextFrame)
      ensures ready <==> old(AllPresent(session.c, session.buffer.table, session.nextFrame))
      ensures ready ==> Confirmed(session.c, session.buffer.table, session.nextFrame)
      ensures ready ==> inputs == InputsAt(session.c, session.buffer.table, session.nextFrame)
      ensures ready ==> inputs == old(InputsAt(session.c, session.buffer.table, session.nextFrame))
    {
      var players, frame := session.c.players, session.nextFrame;
      inputs := [];
      SameAlways(host, frame);
      ReadyNone(session.c, session.buffer.table, frame);
      SameInputsAlways(session.buffer.table);
      hide HostRight, SameBefore, ReadyTo, Confirmed, InputsAt, AtRest, SameInputs;
      for i := 0 to |players|
        invariant Valid() && SameBefore(old(host), host, frame) && |inputs| == i
        invariant ReadyTo(session.c, session.buffer.table, frame, inputs)
        invariant SameInputs(old(session.buffer.table), session.buffer.table)
      {
        var input := session.buffer.Find(players[i], frame);
        if input.None? {
          SameAbsent(old(session.buffer.table), session.buffer.table, Key(players[i], frame));
          return false, [];
        }
        ghost var table, before := session.buffer.table, host;
        MakeCanonical(players[i], input.value);
        ReadyNext(session.c, table, session.buffer.table, frame, inputs, input.value);
        SameOn(old(host), before, host, frame);
        SameInputsOn(old(session.buffer.table), table, session.buffer.table);
        inputs := inputs + [input.value];
      }
      ReadyAll(session.c, session.buffer.table, frame, inputs);
      InputsAlike(session.c, old(session.buffer.table), session.buffer.table, frame);
      ready := true;
    }

    /**
     The host's next frame: it waits for inputs, fails on a request whose snapshot is gone, or rolls
     back, makes the inputs canonical and steps. It decides what was recorded, and nothing that it
     decided before.
     */
    method PrepareInputLockstepFrame(gate: Gate) returns (go: bool, result: Prepared)
      requires Valid()
      modifies this, session, session.buffer
      ensures Valid() && SameBefore(old(host), host, old(session.nextFrame))
      ensures go <==> gate.Inactive? || result == Stepping
      ensures result == Resync <==> gate.Open? && old(MayStep() && SnapshotMissing(session.View()))
      ensures result == Stepping <==>
              gate.Open? && result != Resync &&
              old(MayStep() && AllPresent(session.c, session.buffer.table, session.nextFrame))
      ensures session.nextFrame == old(session.nextFrame) + if result == Stepping then 1 else 0
      ensures session.requested == if gate.Open? && old(MayStep()) then None else old(session.requested)
      ensures result == Stepping ==>
              TruthAt(session.c, host.truth, old(session.nextFrame)) ==
              old(InputsAt(session.c, session.buffer.table, session.nextFrame))
    {
      SameAlways(host, session.nextFrame);
      hide HostRight, SameBefore, CanStep, AtRest, TruthAt, InputsAt;
      if gate.Inactive? || gate.Blocked? {
        return gate.Inactive?, Waiting;
      }
      var may := session.CanStepWithoutRunningAhead();
      if !may {
        return false, Waiting;
      }
      result := RollBackAndStep();
      go := result == Stepping;
    }

    ghost predicate MayStep()
      reads session, session.buffer
    {
      CanStep(session.c, session.buffer.table, session.nextFrame)
    }

    method RollBackAndStep() returns (result: Prepared)
      requires Valid()
      modifies this, session, session.buffer
      ensures Valid() && SameBefore(old(host), host, old(session.nextFrame)) && session.requested.None?
      ensures result == Resync <==> old(SnapshotMissing(session.View()))
      ensures result == Stepping <==>
              result != Resync && old(AllPresent(session.c, session.buffer.table, session.nextFrame))
      ensures session.nextFrame == old(session.nextFrame) + if result == Stepping then 1 else 0
      ensures result == Stepping ==>
              TruthAt(session.c, host.truth, old(session.nextFrame)) ==
              old(InputsAt(session.c, session.buffer.table, session.nextFrame))
    {
      ghost var before := session.View();
      SameAlways(host, session.nextFrame);
      Unasked(session.c, host, before);
      HostRests(session.c, host, before);
      hide HostRight, SameBefore, AtRest, AllPresent, Replayed, TruthAt, InputsAt;
      var ok := session.ReplayRollbackWindow();
      if !ok {
        HostRests(session.c, host, session.View());
        return Resync;
      }
      ReplayIdle(session.c, host, before);
      result := StepDecided();
    }

    method StepDecided() returns (result: Prepared)
      requires Valid() && session.requested.None?
      modifies this, session, session.buffer
      ensures Valid() && SameBefore(old(host), host, old(session.nextFrame)) && session.requested.None?
      ensures result ==
              if old(AllPresent(session.c, session.buffer.table, session.nextFrame)) then Stepping else Waiting
      ensures session.nextFrame == old(session.nextFrame) + if result == Stepping then 1 else 0
      ensures result == Stepping ==>
              TruthAt(session.c, host.truth, old(session.nextFrame)) ==
              old(InputsAt(session.c, session.buffer.table, session.nextFrame))
    {
      hide HostRight, TruthAt, SameBefore, AtRest, AllPresent, Confirmed, InputsAt, HistoryCleared, SnapshotsPruned;
      var ready, inputs := BuildFrameInputs();
      if !ready {
        return Waiting;
      }
      ghost var decided := session.View();
      DecidedNow(session.c, host, decided);
      StepRight(session.c, host, decided);
      session.StepFrame(inputs);
      session.TrimWindows();
      assert session.View() == NewFrame(session.c, decided);
      HostRests(session.c, host, session.View());
      result := Stepping;
    }

    /** What is sent after a step: the burst of the last frame, in packets of 16 records. */
    method BuildLocalInputFramePackets() returns (packets: seq<seq<Record>>)
      requires Valid()
      ensures if session.nextFrame == 0 then packets == []
              else CutUp(Burst(session.c, host, session.nextFrame - 1), packets)
    {
      hide AtRest, Burst, Collected, TruthUpTo;
      packets := [];
      var next := session.nextFrame;
      assert HostHolds(session.c, host, session.buffer.table, next) && session.buffer.Valid();
      assert CutUp([], packets);
      hide *;
      if |session.c.players| == 0 || next == 0 {
        if next > 0 { NoPlayers(session.c, host, next); }
        return;
      }
      CollectedAllOfBurst(session.c, host, session.buffer.table, next);
      var lastFrame := next - 1;
      var records := session.buffer.CollectCanonicalRecords(
        session.c.players, FirstInputHistoryFrame(lastFrame), lastFrame, MostRecords(session.c));
      packets := CutIntoPackets(records);
    }
  }

  lemma Unasked<S>(c: Config<S>, host: Host, p: Peer<S>)
    requires HostRight(c, host, p)
    ensures HostRight(c, host, p.(requested := None))
  {
  }

  function MostRecords<S>(c: Config<S>): nat { |c.players| * (INPUT_HISTORY_FRAMES + 1) }

  lemma CollectedAllOfBurst<S>(c: Config<S>, host: Host, table: Table, next: nat)
    requires HostHolds(c, host, table, next) && next > 0
    ensures var first := FirstInputHistoryFrame(next - 1);
            Cut(Collected(table, true, c.players, first, next - 1 + 1 - first), MostRecords(c)) ==
            Burst(c, host, next - 1)
  {
    hide HostHolds, Collected, Burst;
    CollectedIsBurst(c, host, table, next);
  }

  lemma {:induction false} NoPlayers<S>(c: Config<S>, host: Host, next: nat)
    requires c.players == [] && next > 0
    ensures Burst(c, host, next - 1) == []
  {
    RowsLength(c, host, First(c, next - 1), next - First(c, next - 1));
  }
}
