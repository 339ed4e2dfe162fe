/**
 What peer and host hear of each other: the peer sends its own last inputs again with every
 frame it queues; the host decides frame after frame, and with every frame sends the canonical
 records of the last frames again, in bursts cut into packets. Any of them may be lost, come
 late, or come twice.
 */
module HostStream {
  import opened Options
  import opened InputFrames
  import opened InputBuffer
  import opened Snapshots
  import opened PeerRollback

  const RECORDS_PER_PACKET: nat := 16

  // What the host decides, and the sequence numbers it gives its records.
  datatype Host = Host(truth: Truth, stamp: (nat, nat) -> nat)
  {
    function Canon(playerId: nat, frame: nat): Record {
      Record(playerId, frame, stamp(playerId, frame), truth(playerId, frame), false, true, false)
    }
  }

  // A burst asks for 13 frames, of which the host's own buffer may have kept fewer.
  function BurstLength<S>(c: Config<S>): nat {
    if c.History() < INPUT_HISTORY_FRAMES + 1 then c.History() else INPUT_HISTORY_FRAMES + 1
  }

  function First<S>(c: Config<S>, last: nat): nat { Low(last + 1, BurstLength(c)) }

  // The records of one frame in player order, and those of n frames.
  function Row<S>(c: Config<S>, host: Host, frame: nat): seq<Record> {
    seq(|c.players|, i requires 0 <= i < |c.players| => host.Canon(c.players[i], frame))
  }

  function Rows<S>(c: Config<S>, host: Host, first: nat, n: nat): seq<Record> {
    if n == 0 then [] else Rows(c, host, first, n - 1) + Row(c, host, first + n - 1)
  }

  // What the host sends after frame last.
  function Burst<S>(c: Config<S>, host: Host, last: nat): seq<Record> {
    Rows(c, host, First(c, last), last + 1 - First(c, last))
  }

  // The j-th packet of a list of records.
  function Slice(records: seq<Record>, j: nat): seq<Record> {
    var from, to := j * RECORDS_PER_PACKET, (j + 1) * RECORDS_PER_PACKET;
    if from >= |records| then [] else if to >= |records| then records[from..] else records[from..to]
  }

  function Packet<S>(c: Config<S>, host: Host, last: nat, j: nat): seq<Record> { Slice(Burst(c, host, last), j) }

  // The peer; the next frame it will queue its own inputs for; the frames the host holds its
  // inputs for; and the next frame the host decides.
  datatype Session<S> = Session(peer: Peer<S>, queued: nat, held: set<nat>, hostNext: nat)

  datatype Event =
    | Queue(own: nat -> InputFrame, sequence: nat)
    | OwnArrives(last: nat)
    | HostSteps
    | BurstArrives(last: nat)
    | PacketArrives(last: nat, j: nat)
    | Prepare(result: Prepared)

  // What arrives at the peer.
  predicate Arrives(e: Event) { e.BurstArrives? || e.PacketArrives? }

  function Max(a: nat, b: nat): nat { if a > b then a else b }

  /**
   A session begins at a reset, or with a snapshot of the host's state before frame base that
   replaces everything the peer had. The host may still hold inputs the peer sent before.
   */
  function Started<S>(c: Config<S>, host: Host, held: set<nat>): Session<S> {
    var past := TruthUpTo(c, host.truth, c.base);
    Session(Peer(map[], [], None, c.base, Fold(c, past), past), c.base, held, c.base)
  }

  // The peer's own inputs for a frame, one record for each local player.
  function Queued<S>(c: Config<S>, table: Table, n: nat, frame: nat, own: nat -> InputFrame, sequence: nat): Table
    requires n <= |c.players|
  {
    if n == 0 then table
    else
      var rest, id := Queued(c, table, n - 1, frame, own, sequence), c.players[n - 1];
      if id in c.locals then Stored(rest, Record(id, frame, sequence, own(id), false, false, false)) else rest
  }

  // And for n frames.
  function QueuedFrames<S>(
    c: Config<S>, table: Table, from: nat, n: nat, own: nat -> InputFrame, sequence: nat): Table
  {
    if n == 0 then table
    else
      var rest := QueuedFrames(c, table, from, n - 1, own, sequence);
      Queued(c, rest, |c.players|, from + n - 1, own, sequence + n - 1)
  }

  // Where the queue ends when it is full.
  function QueueEnd<S>(c: Config<S>, s: Session<S>): nat { Max(s.queued, s.peer.next + c.delay + 1) }

  // The first frame of the peer's own burst after it has queued frame last, and all its frames.
  function OwnFirst<S>(c: Config<S>, last: nat): nat { Max(c.base, Low(last + 1, INPUT_HISTORY_FRAMES + 1)) }

  function OwnBurst<S>(c: Config<S>, last: nat): set<nat> { Frames(OwnFirst(c, last), last + 1) }

  function Frames(from: nat, to: nat): (frames: set<nat>)
    ensures forall f: nat :: f in frames <==> from <= f < to
  {
    if to <= from then {} else Frames(from, to - 1) + {to - 1}
  }

  // The host has the peer's inputs for its next frame, and is not too far ahead of the last of them.
  ghost predicate HostMay<S>(c: Config<S>, s: Session<S>) {
    s.hostNext in s.held && exists f :: f in s.held && c.delay <= f && s.hostNext + c.delay <= f + c.window
  }

  function Heard<S>(c: Config<S>, host: Host, e: Event): seq<Record>
    requires Arrives(e)
  {
    if e.BurstArrives? then Burst(c, host, e.last) else Packet(c, host, e.last, e.j)
  }

  /**
   One event. The peer queues its own inputs as far as the input delay goes, sends a burst of them,
   and prepares a frame only with its inputs queued; a tick may end before that. The host decides a
   frame once it may. What arrives was sent at some time before: the peer's bursts end where its
   queue once ended, and the host sends one for every frame it decided.
   */
  ghost predicate Goes<S>(c: Config<S>, host: Host, s: Session<S>, e: Event, t: Session<S>) {
    match e
    case Queue(own, sequence) =>
      var table := QueuedFrames(c, s.peer.table, s.queued, QueueEnd(c, s) - s.queued, own, sequence);
      t == s.(queued := QueueEnd(c, s), peer := s.peer.(table := table))
    case OwnArrives(last) =>
      c.base + c.delay <= last < s.queued && t == s.(held := s.held + OwnBurst(c, last))
    case HostSteps => HostMay(c, s) && t == s.(hostNext := s.hostNext + 1)
    case BurstArrives(last) => last < s.hostNext && t == s.(peer := CanonicalStored(s.peer, Heard(c, host, e)))
    case PacketArrives(last, _) => last < s.hostNext && t == s.(peer := CanonicalStored(s.peer, Heard(c, host, e)))
    case Prepare(result) =>
      s.peer.next + c.delay < s.queued && PreparedTo(c, s.peer, result, t.peer) && t == s.(peer := t.peer)
  }

  ghost predicate Runs<S(!new)>(c: Config<S>, host: Host, from: Session<S>, events: seq<Event>, s: Session<S>)
    decreases |events|
  {
    if events == [] then s == from
    else exists m {:trigger Runs(c, host, from, events[..|events| - 1], m)} ::
           Runs(c, host, from, events[..|events| - 1], m) && Goes(c, host, m, events[|events| - 1], s)
  }

  // What the host may hold of the peer's inputs when a session begins (see ResumesWithin).
  ghost predicate HeldAtStart<S>(c: Config<S>, held: set<nat>) {
    AllBelow(held, c.base + Max(c.window, c.delay) + 1)
  }

  ghost predicate AllBelow(held: set<nat>, top: nat) { forall f :: f in held ==> f < top }

  lemma LastStep<S(!new)>(c: Config<S>, host: Host, from: Session<S>, events: seq<Event>, s: Session<S>)
    returns (front: seq<Event>, m: Session<S>, e: Event)
    requires Runs(c, host, from, events, s) && events != []
    ensures events == front + [e] && Runs(c, host, from, front, m) && Goes(c, host, m, e, s)
  {
    hide Goes;
    front, e := events[..|events| - 1], events[|events| - 1];
    m :| Runs(c, host, from, front, m) && Goes(c, host, m, e, s);
  }

  ghost predicate Reached<S(!new)>(c: Config<S>, host: Host, held: set<nat>, events: seq<Event>, s: Session<S>) {
    HeldAtStart(c, held) && Runs(c, host, Started(c, host, held), events, s)
  }

  // Bursts may be lost, late or doubled, but are not torn.
  ghost predicate WholeBursts(events: seq<Event>) {
    forall e :: e in events ==> !e.PacketArrives?
  }

  // A peer has local and remote players, all of them valid.
  ghost predicate Peerlike<S>(c: Config<S>) {
    && INVALID_PLAYER_ID !in c.players
    && (exists i :: 0 <= i < |c.players| && c.players[i] in c.locals)
    && (exists i :: 0 <= i < |c.players| && c.players[i] !in c.locals)
  }

  /** Host and peer wait for each other: neither can get far enough ahead for the first step. */
  predicate Deadlocked<S>(c: Config<S>) {
    c.delay > c.window + if c.base < c.window then c.base else c.window
  }

  /**
   Frames that no burst of the peer carries, because its first one ends at base + delay and is 13
   frames long: from the first of these that the host does not already hold, it never goes on.
   */
  ghost predicate Skipped<S>(c: Config<S>, held: set<nat>, f: nat) {
    c.base <= f && f + INPUT_HISTORY_FRAMES < c.base + c.delay && f !in held
  }

  ghost predicate Fed<S>(c: Config<S>, held: set<nat>) { forall f: nat :: !Skipped(c, held, f) }

  // The last frame the peer must have heard to take its first step.
  function FirstNeeded<S>(c: Config<S>): nat { Max(c.delay, Low(c.base + c.delay, c.window)) }

  ghost predicate FedToStart<S>(c: Config<S>, held: set<nat>) {
    forall f: nat :: f <= FirstNeeded(c) ==> !Skipped(c, held, f)
  }

  // The rollback window is at most 12 frames, and so shorter than a burst.
  predicate Short<S>(c: Config<S>) { c.window <= INPUT_HISTORY_FRAMES }

  // ----- what a burst carries -----

  ghost predicate Names(records: seq<Record>, k: Key) {
    exists i :: 0 <= i < |records| && records[i].KeyOf() == k
  }

  ghost predicate AllCanonical<S>(c: Config<S>, records: seq<Record>, truth: Truth) {
    && INVALID_PLAYER_ID !in c.players && HonestRecords(records, truth)
    && forall i :: 0 <= i < |records| ==>
         records[i].canonical && !records[i].predicted && !records[i].arbitratedMissing &&
           records[i].playerId in c.players
  }

  lemma {:induction false} RowsCarry<S>(c: Config<S>, host: Host, first: nat, n: nat, k: Key)
    ensures Names(Rows(c, host, first, n), k) <==> first <= k.frame < first + n && k.playerId in c.players
  {
    if n > 0 {
      RowsCarry(c, host, first, n - 1, k);
      var front, row := Rows(c, host, first, n - 1), Row(c, host, first + n - 1);
      NamesOfBoth(front, row, k);
      if k.frame == first + n - 1 && k.playerId in c.players {
        var i :| 0 <= i < |c.players| && c.players[i] == k.playerId;
        assert row[i].KeyOf() == k;
      }
    }
  }

  lemma NamesOfBoth(a: seq<Record>, b: seq<Record>, k: Key)
    ensures Names(a + b, k) <==> Names(a, k) || Names(b, k)
  {
    if Names(a, k) {
      var i :| 0 <= i < |a| && a[i].KeyOf() == k;
      assert (a + b)[i].KeyOf() == k;
    }
    if Names(b, k) {
      var i :| 0 <= i < |b| && b[i].KeyOf() == k;
      assert (a + b)[|a| + i].KeyOf() == k;
    }
  }

  /** A burst carries every player's input for each of its frames, and no others. */
  lemma BurstCarries<S>(c: Config<S>, host: Host, last: nat, k: Key)
    ensures Names(Burst(c, host, last), k) <==> First(c, last) <= k.frame <= last && k.playerId in c.players
  {
    RowsCarry(c, host, First(c, last), last + 1 - First(c, last), k);
  }

  lemma {:induction false} RowsCanonical<S>(c: Config<S>, host: Host, first: nat, n: nat)
    requires INVALID_PLAYER_ID !in c.players
    ensures AllCanonical(c, Rows(c, host, first, n), host.truth)
  {
    if n > 0 { RowsCanonical(c, host, first, n - 1); }
  }

  lemma HeardCanonical<S>(c: Config<S>, host: Host, e: Event)
    requires Arrives(e) && INVALID_PLAYER_ID !in c.players
    ensures AllCanonical(c, Heard(c, host, e), host.truth)
    ensures forall k :: Names(Heard(c, host, e), k) ==> Names(Burst(c, host, e.last), k)
  {
    var records, heard := Burst(c, host, e.last), Heard(c, host, e);
    RowsCanonical(c, host, First(c, e.last), e.last + 1 - First(c, e.last));
    hide Burst;
    assert forall i :: 0 <= i < |heard| ==>
             heard[i] == records[if e.BurstArrives? then i else i + e.j * RECORDS_PER_PACKET];
  }

  // ----- what storing them does -----

  // The host's own decision, which nothing but another canonical record replaces.
  predicate Firm(r: Record) { r.canonical && !r.predicted && !r.arbitratedMissing }

  // What storing canonical records leaves.
  ghost predicate Taken<S>(p: Peer<S>, records: seq<Record>, q: Peer<S>) {
    && q == p.(table := q.table, requested := q.requested) && Keyed(q.table)
    && (forall k :: k in q.table <==> k in p.table || Names(records, k))
    && (forall k :: Names(records, k) ==> Firm(q.table[k]))
    && (forall k :: k in p.table && !Names(records, k) ==> q.table[k] == p.table[k])
  }

  /** Canonical records are all taken, and everything else stays. */
  lemma {:induction false} CanonicalTaken<S>(c: Config<S>, p: Peer<S>, records: seq<Record>, truth: Truth)
    requires AllCanonical(c, records, truth) && Keyed(p.table)
    ensures Taken(p, records, CanonicalStored(p, records))
  {
    if records != [] {
      var n := |records| - 1;
      var front, last := records[..n], records[n];
      assert AllCanonical(c, front, truth) && records == front + [last];
      CanonicalTaken(c, p, front, truth);
      forall k ensures Names(records, k) <==> Names(front, k) || k == last.KeyOf() {
        NamesOfBoth(front, [last], k);
        assert k == last.KeyOf() ==> [last][0].KeyOf() == k;
      }
      assert Firm(last) && last.playerId != INVALID_PLAYER_ID;
      hide AllCanonical, Names, Outcome;
      TakenOn(p, front, CanonicalStored(p, front), last, records);
    }
  }

  lemma TakenOn<S>(p: Peer<S>, front: seq<Record>, q: Peer<S>, last: Record, records: seq<Record>)
    requires Taken(p, front, q) && Firm(last) && last.playerId != INVALID_PLAYER_ID
    requires forall k :: Names(records, k) <==> Names(front, k) || k == last.KeyOf()
    ensures Taken(p, records, RecordStored(q, last))
  {
    hide Names, Outcome;
  }

  lemma {:induction false} CanonicalRests<S>(c: Config<S>, p: Peer<S>, records: seq<Record>)
    requires AtRest(c, p)
    ensures AtRest(c, CanonicalStored(p, records))
  {
    if records != [] {
      var last := records[|records| - 1];
      var q := CanonicalStored(p, records[..|records| - 1]);
      CanonicalRests(c, p, records[..|records| - 1]);
      StoreKeeps(c, q, last);
      hide Consistent, Stored, Outcome, Request;
    }
  }

  ghost predicate AllFirm(table: Table) { forall k :: k in table && table[k].canonical ==> Firm(table[k]) }

  // The canonical inputs are the host's and firm, requests never reach back beyond a frame, and
  // everything before it is canonical.
  ghost predicate RequestsFrom<S>(c: Config<S>, p: Peer<S>, truth: Truth, low: nat) {
    && HonestHost(p.table, truth)
    && AllFirm(p.table)
    && (p.requested.Some? ==> p.requested.value >= low)
    && forall k :: k in p.table && k.playerId in c.players && k.frame < low ==> p.table[k].canonical
  }

  lemma {:induction false} RequestsStay<S>(c: Config<S>, p: Peer<S>, records: seq<Record>, truth: Truth, low: nat)
    requires AllCanonical(c, records, truth) && RequestsFrom(c, p, truth, low)
    ensures RequestsFrom(c, CanonicalStored(p, records), truth, low)
  {
    if records != [] {
      var n := |records| - 1;
      var front, last := records[..n], records[n];
      assert AllCanonical(c, front, truth);
      RequestsStay(c, p, front, truth, low);
      assert Firm(last) && last.input == truth(last.playerId, last.frame) && last.playerId in c.players;
      hide AllCanonical;
      RequestsOn(c, CanonicalStored(p, front), last, truth, low);
    }
  }

  lemma RequestsOn<S>(c: Config<S>, p: Peer<S>, r: Record, truth: Truth, low: nat)
    requires Firm(r) && r.input == truth(r.playerId, r.frame) && r.playerId in c.players
    requires RequestsFrom(c, p, truth, low)
    ensures RequestsFrom(c, RecordStored(p, r), truth, low)
  {
  }

  // The peer's own input is no mismatch for a frame not yet stepped.
  lemma {:induction false} QueuedKeeps<S>(
    c: Config<S>, p: Peer<S>, n: nat, frame: nat, own: nat -> InputFrame, sequence: nat, truth: Truth)
    requires AtRest(c, p) && n <= |c.players| && frame >= p.next
    ensures var table := Queued(c, p.table, n, frame, own, sequence);
            AtRest(c, p.(table := table)) && (HonestHost(p.table, truth) ==> HonestHost(table, truth))
  {
    if n > 0 {
      QueuedKeeps(c, p, n - 1, frame, own, sequence, truth);
      var id := c.players[n - 1];
      if id in c.locals {
        var q := p.(table := Queued(c, p.table, n - 1, frame, own, sequence));
        var r := Record(id, frame, sequence, own(id), false, false, false);
        hide AtRest, HonestHost, Stored;
        OwnStored(c, q, r, truth);
      }
    }
  }

  lemma OwnStored<S>(c: Config<S>, p: Peer<S>, r: Record, truth: Truth)
    requires AtRest(c, p) && r.frame >= p.next && !r.canonical
    ensures AtRest(c, p.(table := Stored(p.table, r)))
    ensures HonestHost(p.table, truth) ==> HonestHost(Stored(p.table, r), truth)
  {
    StoreKeeps(c, p, r);
    StoreHonestly(p.table, r, truth);
    assert RecordStored(p, r) == p.(table := Stored(p.table, r));
    hide AtRest, HonestHost, Outcome;
  }

  lemma {:induction false} QueuedFramesKeep<S>(
    c: Config<S>, p: Peer<S>, from: nat, n: nat, own: nat -> InputFrame, sequence: nat, truth: Truth)
    requires AtRest(c, p) && from >= p.next
    ensures var table := QueuedFrames(c, p.table, from, n, own, sequence);
            AtRest(c, p.(table := table)) && (HonestHost(p.table, truth) ==> HonestHost(table, truth))
  {
    if n > 0 {
      hide AtRest, HonestHost, Queued;
      QueuedFramesKeep(c, p, from, n - 1, own, sequence, truth);
      var q := p.(table := QueuedFrames(c, p.table, from, n - 1, own, sequence));
      QueuedKeeps(c, q, |c.players|, from + n - 1, own, sequence + n - 1, truth);
    }
  }

  // And what it does to the records.
  lemma {:induction false} QueuedOwn<S>(
    c: Config<S>, table: Table, n: nat, frame: nat, own: nat -> InputFrame, sequence: nat)
    requires n <= |c.players|
    ensures var after := Queued(c, table, n, frame, own, sequence);
            && OnlyOwn(c, table, after, frame)
            && forall i :: 0 <= i < n && c.players[i] in c.locals && c.players[i] != INVALID_PLAYER_ID ==>
                 Key(c.players[i], frame) in after
  {
    if n > 0 { QueuedOwn(c, table, n - 1, frame, own, sequence); }
  }

  // Nothing but local players' records from a frame on is new or changed, and no firm record.
  ghost predicate OnlyOwn<S>(c: Config<S>, table: Table, after: Table, from: nat) {
    && (forall k :: k in table ==> k in after)
    && (forall k :: k in table && Firm(table[k]) ==> after[k] == table[k])
    && (forall k :: k in after && !(k in table && after[k] == table[k]) ==> !after[k].canonical)
    && forall k :: k in after && !(k.frame >= from && k.playerId in c.locals) ==> k in table && after[k] == table[k]
  }

  /** Afterwards every own input up to the input delay is there, and no firm record has changed. */
  lemma {:induction false} QueuedFramesAre<S>(
    c: Config<S>, table: Table, from: nat, n: nat, own: nat -> InputFrame, sequence: nat)
    ensures var after := QueuedFrames(c, table, from, n, own, sequence);
            && OnlyOwn(c, table, after, from)
            && forall i, f :: 0 <= i < |c.players| && c.players[i] in c.locals && from <= f < from + n ==>
                 c.players[i] == INVALID_PLAYER_ID || Key(c.players[i], f) in after
  {
    if n > 0 {
      QueuedFramesAre(c, table, from, n - 1, own, sequence);
      var rest := QueuedFrames(c, table, from, n - 1, own, sequence);
      QueuedOwn(c, rest, |c.players|, from + n - 1, own, sequence + n - 1);
      hide Queued;
    }
  }

  lemma {:induction false} QueuedHold<S>(
    c: Config<S>, table: Table, n: nat, frame: nat, own: nat -> InputFrame, sequence: nat)
    requires n <= |c.players|
    ensures var after := Queued(c, table, n, frame, own, sequence);
            forall k :: k in after && k !in table ==>
              k.frame == frame &&
              after[k] == Record(k.playerId, frame, sequence, own(k.playerId), false, false, false)
  {
    if n > 0 { QueuedHold(c, table, n - 1, frame, own, sequence); }
  }

  /** And every record that is new holds what its player holds, with one sequence number a frame. */
  lemma {:induction false} QueuedFramesHold<S>(
    c: Config<S>, table: Table, from: nat, n: nat, own: nat -> InputFrame, sequence: nat)
    ensures var after := QueuedFrames(c, table, from, n, own, sequence);
            forall k :: k in after && k !in table ==>
              from <= k.frame < from + n &&
              after[k] == Record(k.playerId, k.frame, sequence + (k.frame - from), own(k.playerId), false, false, false)
  {
    if n > 0 {
      QueuedFramesHold(c, table, from, n - 1, own, sequence);
      var rest := QueuedFrames(c, table, from, n - 1, own, sequence);
      QueuedOwn(c, rest, |c.players|, from + n - 1, own, sequence + n - 1);
      QueuedHold(c, rest, |c.players|, from + n - 1, own, sequence + n - 1);
      hide Queued;
    }
  }

  // ----- how far apart the parties can be -----

  // How far the host gets ahead of the peer's next frame.
  function Lead<S>(c: Config<S>): nat { if c.delay < c.window then c.delay else c.window }

  // How many frames may go unheard from one step to the next.
  function Slack<S>(c: Config<S>): int { c.window + Lead(c) - c.delay }

  // The first frame the host cannot have the peer's inputs for.
  function Top<S>(c: Config<S>, next: nat): nat { Max(next + c.delay + 1, c.base + Max(c.window, c.delay) + 1) }

  // When no actual remote input from frame seen on has been heard.
  ghost predicate InStep<S>(c: Config<S>, s: Session<S>, seen: nat) {
    && c.base <= seen <= s.hostNext && c.base <= s.peer.next <= s.queued <= s.peer.next + c.delay + 1
    && AllBelow(s.held, Top(c, s.peer.next))
    && s.hostNext <= Max(s.peer.next + Lead(c) + 1, c.base + c.window + 1)
    && (s.peer.next > c.base ==> c.delay < seen && s.peer.next + c.delay <= seen + c.window)
  }

  ghost predicate HeardBelow<S>(c: Config<S>, table: Table, seen: nat) {
    forall k :: k in table && k.playerId in c.players && k.playerId !in c.locals ==>
      table[k].predicted || k.frame < seen
  }

  // What holds in every run, whatever is lost.
  ghost predicate Orderly<S>(c: Config<S>, s: Session<S>, seen: nat) {
    AtRest(c, s.peer) && InStep(c, s, seen) && HeardBelow(c, s.peer.table, seen)
  }

  function SeenAfter(seen: nat, e: Event): nat { if Arrives(e) then Max(seen, e.last + 1) else seen }

  ghost predicate Onward<S>(c: Config<S>, s: Session<S>, t: Session<S>, seen: nat) {
    Orderly(c, t, seen) && s.peer.next <= t.peer.next && Shared(s.peer.used, t.peer.used, c.From(s.peer.next, c.Kept()))
  }

  // A peer that may step has heard near enough to it.
  lemma StepHeard<S>(c: Config<S>, table: Table, next: nat, seen: nat)
    requires CanStep(c, table, next) && HeardBelow(c, table, seen) && Peerlike(c)
    ensures c.delay < seen && next + 1 + c.delay <= seen + c.window
  {
    var i :| 0 <= i < |c.players| && c.players[i] !in c.locals;
    assert NearEnough(c, table, c.players[i], next);
  }

  lemma EventOrderly<S>(c: Config<S>, host: Host, s: Session<S>, e: Event, t: Session<S>, seen: nat)
    requires Peerlike(c) && Orderly(c, s, seen) && Goes(c, host, s, e, t) && e != Prepare(Resync)
    ensures Onward(c, s, t, SeenAfter(seen, e))
  {
    hide AtRest, HeardBelow, Shared, Heard, QueuedFrames, PreparedTo, CanonicalStored, InStep, HostMay;
    if e.Queue? {
      QueueOrderly(c, host, s, e, t, seen);
    } else if e.Prepare? {
      PrepareOrderly(c, host, s, e, t, seen);
    } else if Arrives(e) {
      assert e.last < s.hostNext;
      ArrivalOrderly(c, host, s, e, t, seen);
    } else {
      UsedCounts(c, s.peer);
      HostInStep(c, host, s, e, t, seen);
      hide InStep;
      SharedAlways(s.peer.used, c.From(s.peer.next, c.Kept()));
    }
  }

  lemma HostInStep<S>(c: Config<S>, host: Host, s: Session<S>, e: Event, t: Session<S>, seen: nat)
    requires InStep(c, s, seen) && Goes(c, host, s, e, t) && (e.HostSteps? || e.OwnArrives?)
    ensures InStep(c, t, seen)
  {
  }

  lemma ArrivalOrderly<S>(c: Config<S>, host: Host, s: Session<S>, e: Event, t: Session<S>, seen: nat)
    requires Peerlike(c) && Orderly(c, s, seen) && Arrives(e) && Goes(c, host, s, e, t)
    ensures Onward(c, s, t, Max(seen, e.last + 1))
  {
    assert e.last < s.hostNext && c.base <= s.peer.next;
    UsedCounts(c, s.peer);
    hide Orderly, Goes, Peerlike, Shared;
    HeardOrderly(c, host, s, e, t, seen, e.last + 1);
    SharedAlways(s.peer.used, c.From(s.peer.next, c.Kept()));
  }

  lemma QueueOrderly<S>(c: Config<S>, host: Host, s: Session<S>, e: Event, t: Session<S>, seen: nat)
    requires Orderly(c, s, seen) && e.Queue? && Goes(c, host, s, e, t)
    ensures Onward(c, s, t, seen)
  {
    assert c.base <= s.peer.next <= s.queued;
    hide AtRest, QueuedFrames, HonestHost, OnlyOwn, HeardBelow, InStep, Shared;
    UsedCounts(c, s.peer);
    QueuedFramesKeep(c, s.peer, s.queued, t.queued - s.queued, e.own, e.sequence, host.truth);
    QueuedFramesAre(c, s.peer.table, s.queued, t.queued - s.queued, e.own, e.sequence);
    OwnHeardBelow(c, s.peer.table, t.peer.table, s.queued, seen);
    assert s.peer.used == t.peer.used;
    SharedAlways(s.peer.used, c.From(s.peer.next, c.Kept()));
    QueueInStep(c, s, t, seen);
  }

  lemma SharedAlways(used: seq<seq<InputFrame>>, n: nat)
    requires n <= |used|
    ensures Shared(used, used, n)
  {
  }

  lemma QueueInStep<S>(c: Config<S>, s: Session<S>, t: Session<S>, seen: nat)
    requires InStep(c, s, seen) && t == s.(queued := QueueEnd(c, s), peer := t.peer) && t.peer.next == s.peer.next
    ensures InStep(c, t, seen)
  {
  }

  lemma OwnHeardBelow<S>(c: Config<S>, table: Table, after: Table, frame: nat, seen: nat)
    requires OnlyOwn(c, table, after, frame) && HeardBelow(c, table, seen)
    ensures HeardBelow(c, after, seen)
  {
  }

  lemma PrepareOrderly<S>(c: Config<S>, host: Host, s: Session<S>, e: Event, t: Session<S>, seen: nat)
    requires Peerlike(c) && Orderly(c, s, seen) && e.Prepare? && e.result != Resync && Goes(c, host, s, e, t)
    ensures Onward(c, s, t, seen)
  {
    var p := s.peer;
    hide AtRest, PreparedTo, Faithful, CanStep, LocalsPresent, LeavesConfirmed, Shared;
    PreparedKeeps(c, p, e.result, t.peer, host.truth);
    PreparedWhen(c, p, e.result, t.peer);
    if CanStep(c, p.table, p.next) { StepHeard(c, p.table, p.next, seen); }
  }

  // What is heard of the frames below a bound.
  lemma HeardOrderly<S>(c: Config<S>, host: Host, s: Session<S>, e: Event, t: Session<S>, seen: nat, to: nat)
    requires Peerlike(c) && Orderly(c, s, seen) && Goes(c, host, s, e, t) && Arrives(e) && to <= s.hostNext
    requires to == e.last + 1 || forall k :: Names(Heard(c, host, e), k) ==> k.frame < to
    ensures Orderly(c, t, Max(seen, to)) && t.peer.used == s.peer.used && t.peer.next == s.peer.next
  {
    var records := Heard(c, host, e);
    hide AtRest, Burst, Packet, Names, AllCanonical, CanonicalStored, HeardBelow, InStep, Taken;
    StoresOnly(s.peer, records);
    assert INVALID_PLAYER_ID !in c.players;
    HeardCanonical(c, host, e);
    RestsKeyed(c, s.peer);
    CanonicalTaken(c, s.peer, records, host.truth);
    CanonicalRests(c, s.peer, records);
    forall k | Names(records, k) ensures k.frame < to {
      if to == e.last + 1 { BurstCarries(c, host, e.last, k); }
    }
    TakenHeardBelow(c, s.peer, records, t.peer, seen, to);
    HeardInStep(c, s, t, seen, to);
  }

  lemma RestsKeyed<S>(c: Config<S>, p: Peer<S>)
    requires AtRest(c, p)
    ensures Keyed(p.table)
  {
  }

  lemma TakenHeardBelow<S>(c: Config<S>, p: Peer<S>, records: seq<Record>, q: Peer<S>, seen: nat, to: nat)
    requires Taken(p, records, q) && HeardBelow(c, p.table, seen) && forall k :: Names(records, k) ==> k.frame < to
    ensures HeardBelow(c, q.table, Max(seen, to))
  {
    hide Names;
  }

  lemma HeardInStep<S>(c: Config<S>, s: Session<S>, t: Session<S>, seen: nat, to: nat)
    requires InStep(c, s, seen) && to <= s.hostNext && t == s.(peer := t.peer) && t.peer.next == s.peer.next
    ensures InStep(c, t, Max(seen, to))
  {
  }

  lemma StartOrderly<S>(c: Config<S>, host: Host, held: set<nat>)
    requires HeldAtStart(c, held)
    ensures Orderly(c, Started(c, host, held), c.base)
  {
  }

  /** A session that is resumed in its turn begins as a session may. */
  lemma ResumesWithin<S>(c: Config<S>, s: Session<S>, seen: nat, next: Config<S>)
    requires Orderly(c, s, seen) && next == c.(base := s.hostNext)
    ensures HeldAtStart(next, s.held)
  {
    hide AtRest, HeardBelow;
  }

  lemma {:induction false} RunOrderly<S(!new)>(
    c: Config<S>, host: Host, from: Session<S>, heard: nat, events: seq<Event>, s: Session<S>) returns (seen: nat)
    requires Peerlike(c) && Orderly(c, from, heard) && Runs(c, host, from, events, s) && Prepare(Resync) !in events
    ensures Onward(c, from, s, seen)
    decreases |events|
  {
    if events == [] {
      UsedCounts(c, from.peer);
      return heard;
    }
    hide Goes, Runs, Peerlike, Orderly, Onward;
    var front, m, e := LastStep(c, host, from, events, s);
    seen := RunOrderly(c, host, from, heard, front, m);
    OnwardOrderly(c, from, m, seen);
    EventOrderly(c, host, m, e, s, seen);
    OnwardOn(c, from, m, seen, s, SeenAfter(seen, e));
    seen := SeenAfter(seen, e);
  }

  lemma OnwardOrderly<S>(c: Config<S>, s: Session<S>, t: Session<S>, seen: nat)
    requires Onward(c, s, t, seen)
    ensures Orderly(c, t, seen)
  {
  }

  lemma OnwardOn<S>(c: Config<S>, s: Session<S>, m: Session<S>, heard: nat, t: Session<S>, seen: nat)
    requires Onward(c, s, m, heard) && Onward(c, m, t, seen)
    ensures Onward(c, s, t, seen)
  {
    var a, b, d := s.peer.used, m.peer.used, t.peer.used;
    var n, o := c.From(s.peer.next, c.Kept()), c.From(m.peer.next, c.Kept());
    hide Orderly;
    assert n <= o && b[..o][..n] == b[..n] && d[..o][..n] == d[..n];
  }

  // ----- what no event repairs -----

  /**
   What a frame was stepped on when it left the snapshot window stays what it was stepped on,
   whatever arrives afterwards. So a frame that left with another input than the host's is
   never repaired.
   */
  lemma NeverRepaired<S(!new)>(
    c: Config<S>, host: Host, from: Session<S>, heard: nat, events: seq<Event>, s: Session<S>, f: nat)
    requires Peerlike(c) && Orderly(c, from, heard) && Runs(c, host, from, events, s) && Prepare(Resync) !in events
    ensures Shared(from.peer.used, s.peer.used, c.From(from.peer.next, c.Kept()))
    ensures f < c.From(from.peer.next, c.Kept()) && from.peer.used[f] != TruthAt(c, host.truth, f) ==>
              s.peer.used != TruthUpTo(c, host.truth, s.peer.next)
  {
    var seen := RunOrderly(c, host, from, heard, events, s);
    hide Runs, Consistent, TruthAt, HeardBelow, InStep;
    StaysWrong(c, host, from, heard, s, seen, f);
  }

  lemma StaysWrong<S>(c: Config<S>, host: Host, from: Session<S>, heard: nat, s: Session<S>, seen: nat, f: nat)
    requires Orderly(c, from, heard) && Onward(c, from, s, seen)
    ensures f < c.From(from.peer.next, c.Kept()) && from.peer.used[f] != TruthAt(c, host.truth, f) ==>
              s.peer.used != TruthUpTo(c, host.truth, s.peer.next)
  {
    hide Consistent, TruthAt, HeardBelow;
    UsedCounts(c, from.peer);
    UsedCounts(c, s.peer);
    var n := c.From(from.peer.next, c.Kept());
    if f < n {
      assert s.peer.used[f] == s.peer.used[..n][f];
    }
  }

  // ----- sessions that never start -----

  // The host lacks the peer's inputs for a frame it will never get, and has not come past it.
  ghost predicate Stuck<S>(c: Config<S>, s: Session<S>, g: nat) { Skipped(c, s.held, g) && s.hostNext <= g }

  lemma StuckStays<S>(c: Config<S>, host: Host, s: Session<S>, e: Event, t: Session<S>, g: nat)
    requires Stuck(c, s, g) && Goes(c, host, s, e, t)
    ensures Stuck(c, t, g)
  {
    hide QueuedFrames, PreparedTo, CanonicalStored, Heard;
  }

  // Neither party can get far enough for the peer's first step.
  ghost predicate HeldUp<S>(c: Config<S>, s: Session<S>, g: nat) {
    Deadlocked(c) || (g <= FirstNeeded(c) && Stuck(c, s, g))
  }

  lemma HeldUpStays<S>(c: Config<S>, host: Host, s: Session<S>, e: Event, t: Session<S>, g: nat)
    requires HeldUp(c, s, g) && Goes(c, host, s, e, t)
    ensures HeldUp(c, t, g)
  {
    hide Stuck, Goes, Deadlocked;
    if !Deadlocked(c) { StuckStays(c, host, s, e, t, g); }
  }

  lemma CannotStart<S>(c: Config<S>, s: Session<S>, seen: nat, g: nat)
    requires HeldUp(c, s, g) && Peerlike(c) && Orderly(c, s, seen) && s.peer.next == c.base
    ensures !CanStep(c, s.peer.table, s.peer.next)
  {
    hide AtRest;
    if CanStep(c, s.peer.table, s.peer.next) { StepHeard(c, s.peer.table, s.peer.next, seen); }
  }

  lemma {:induction false} WaitsOn<S(!new)>(
    c: Config<S>, host: Host, from: Session<S>, heard: nat, g: nat, events: seq<Event>, s: Session<S>)
    returns (seen: nat)
    requires HeldUp(c, from, g) && Peerlike(c) && Orderly(c, from, heard) && from.peer.next == c.base
    requires Runs(c, host, from, events, s)
    ensures HeldUp(c, s, g) && Orderly(c, s, seen) && s.peer.next == c.base && s.peer.state == from.peer.state
    ensures forall e: Event :: e in events && e.Prepare? ==> e.result == Waiting
    decreases |events|
  {
    if events == [] {
      return heard;
    }
    hide Goes, Runs, Peerlike, Orderly, HeldUp, CanStep;
    var front, m, e := LastStep(c, host, from, events, s);
    seen := WaitsOn(c, host, from, heard, g, front, m);
    CannotStart(c, m, seen, g);
    WaitsOne(c, host, m, e, s);
    HeldUpStays(c, host, m, e, s, g);
    EventOrderly(c, host, m, e, s, seen);
    OnwardOrderly(c, m, s, SeenAfter(seen, e));
    seen := SeenAfter(seen, e);
  }

  lemma WaitsOne<S>(c: Config<S>, host: Host, s: Session<S>, e: Event, t: Session<S>)
    requires Goes(c, host, s, e, t) && !CanStep(c, s.peer.table, s.peer.next)
    ensures t.peer.next == s.peer.next && t.peer.state == s.peer.state && (e.Prepare? ==> e.result == Waiting)
  {
    hide Heard, QueuedFrames, CanStep, HostMay;
    if Arrives(e) { StoresOnly(s.peer, Heard(c, host, e)); }
  }

  /**
   With a delay beyond that, or without the inputs the host needs for the peer's first step, the peer
   never takes it, in any run, torn bursts included.
   */
  lemma NeverStarts<S(!new)>(c: Config<S>, host: Host, held: set<nat>, events: seq<Event>, s: Session<S>)
    requires Deadlocked(c) || !FedToStart(c, held)
    requires Peerlike(c) && Reached(c, host, held, events, s)
    ensures s.peer.next == c.base && s.peer.state == Fold(c, TruthUpTo(c, host.truth, c.base))
    ensures forall e: Event :: e in events && e.Prepare? ==> e.result == Waiting
  {
    var g: nat := 0;
    if !Deadlocked(c) { g :| g <= FirstNeeded(c) && Skipped(c, held, g); }
    StartOrderly(c, host, held);
    var _ := WaitsOn(c, host, Started(c, host, held), c.base, g, events, s);
  }

  // ----- runs that stay right -----

  // What has left the window was stepped on the host's inputs, and a request reaches no further back.
  ghost predicate Sound<S>(c: Config<S>, host: Host, s: Session<S>, seen: nat) {
    && Orderly(c, s, seen) && Faithful(c, s.peer, host.truth)
    && RequestsFrom(c, s.peer, host.truth, c.From(s.peer.next, c.Kept()))
  }

  lemma StartSound<S>(c: Config<S>, host: Host, held: set<nat>)
    requires HeldAtStart(c, held)
    ensures Sound(c, host, Started(c, host, held), c.base)
  {
    StartOrderly(c, host, held);
    hide Orderly, TruthAt;
  }

  lemma QueueSound<S>(c: Config<S>, host: Host, s: Session<S>, e: Event, t: Session<S>, seen: nat)
    requires Peerlike(c) && Sound(c, host, s, seen) && e.Queue? && Goes(c, host, s, e, t)
    ensures Sound(c, host, t, seen)
  {
    hide AtRest, QueuedFrames, HonestHost, OnlyOwn, Faithful, RequestsFrom, HeardBelow, Onward, Peerlike;
    var p, after, truth := s.peer, t.peer.table, host.truth;
    QueueOrderly(c, host, s, e, t, seen);
    assert AtRest(c, p) && c.base <= p.next <= s.queued && t.peer == p.(table := after);
    QueuedFramesKeep(c, p, s.queued, t.queued - s.queued, e.own, e.sequence, truth);
    QueuedFramesAre(c, p.table, s.queued, t.queued - s.queued, e.own, e.sequence);
    OnwardOrderly(c, s, t, seen);
    hide *;
    TableFaithful(c, p, after, truth);
    OwnRequests(c, p, after, truth, s.queued);
    SoundIs(c, host, s, seen);
    SoundIs(c, host, t, seen);
  }

  lemma SoundIs<S>(c: Config<S>, host: Host, s: Session<S>, seen: nat)
    ensures Sound(c, host, s, seen) <==>
            Orderly(c, s, seen) && Faithful(c, s.peer, host.truth) &&
            RequestsFrom(c, s.peer, host.truth, c.From(s.peer.next, c.Kept()))
  {
  }

  lemma TableFaithful<S>(c: Config<S>, p: Peer<S>, after: Table, truth: Truth)
    requires AtRest(c, p.(table := after)) && (HonestHost(p.table, truth) ==> HonestHost(after, truth))
    ensures Faithful(c, p, truth) ==> HonestHost(after, truth) && Faithful(c, p.(table := after), truth)
  {
    hide AtRest;
  }

  lemma OwnRequests<S>(c: Config<S>, p: Peer<S>, after: Table, truth: Truth, from: nat)
    requires OnlyOwn(c, p.table, after, from) && HonestHost(after, truth) && from >= p.next >= c.base
    requires RequestsFrom(c, p, truth, c.From(p.next, c.Kept()))
    ensures RequestsFrom(c, p.(table := after), truth, c.From(p.next, c.Kept()))
  {
    hide HonestHost;
  }

  lemma ArrivalSound<S>(c: Config<S>, host: Host, s: Session<S>, e: Event, t: Session<S>, seen: nat, to: nat)
    requires Peerlike(c) && Sound(c, host, s, seen) && Goes(c, host, s, e, t) && Arrives(e) && to <= s.hostNext
    requires to == e.last + 1 || forall k :: Names(Heard(c, host, e), k) ==> k.frame < to
    ensures Sound(c, host, t, Max(seen, to)) && Taken(s.peer, Heard(c, host, e), t.peer)
    ensures t.peer.next == s.peer.next
  {
    var records := Heard(c, host, e);
    HeardOrderly(c, host, s, e, t, seen, to);
    HeardCanonical(c, host, e);
    CanonicalTaken(c, s.peer, records, host.truth);
    RequestsStay(c, s.peer, records, host.truth, c.From(s.peer.next, c.Kept()));
    hide AtRest, HonestHost, CanonicalStored, Heard, Names, AllCanonical, Orderly, Taken;
    assert Faithful(c, t.peer, host.truth);
  }

  // What a step needs to leave everything right: whatever leaves a window is confirmed.
  ghost predicate LeavesRight<S>(c: Config<S>, p: Peer<S>) {
    && LeavesConfirmed(c, p)
    && forall f :: c.From(p.next, c.Kept()) <= f < c.From(p.next + 1, c.Kept()) ==> Confirmed(c, p.table, f)
  }

  /** Preparing a frame never asks for a resync, and keeps the invariant. */
  lemma PrepareSound<S>(c: Config<S>, host: Host, s: Session<S>, e: Event, t: Session<S>, seen: nat)
    requires Peerlike(c) && Sound(c, host, s, seen) && e.Prepare? && Goes(c, host, s, e, t)
    requires CanStep(c, s.peer.table, s.peer.next) ==> LeavesRight(c, s.peer)
    ensures e.result != Resync && Sound(c, host, t, seen)
    ensures PreparedWell(c, s.peer, e.result, t.peer, host.truth)
  {
    var p, q := s.peer, t.peer;
    PreparedWhen(c, p, e.result, q);
    assert e.result != Resync;
    EventOrderly(c, host, s, e, t, seen);
    PreparedKeeps(c, p, e.result, q, host.truth);
    hide AtRest, PreparedTo, CanStep, LocalsPresent, Faithful, Confirmed, Shared, HeardBelow, RequestsFrom;
    assert CanStep(c, p.table, p.next) ==> LeavesConfirmed(c, p);
    assert Faithful(c, q, host.truth);
    PreparedRequests(c, host, p, e.result, q);
  }

  lemma PreparedRequests<S>(c: Config<S>, host: Host, p: Peer<S>, result: Prepared, q: Peer<S>)
    requires RequestsFrom(c, p, host.truth, c.From(p.next, c.Kept())) && PreparedWell(c, p, result, q, host.truth)
    requires Faithful(c, q, host.truth) && p.next >= c.base && (result == Stepping ==> LeavesRight(c, p))
    requires result == Stepping ==> CanStep(c, p.table, p.next)
    ensures RequestsFrom(c, q, host.truth, c.From(q.next, c.Kept()))
  {
    hide AtRest, CanStep, PastIsTrue, Shared, LeavesConfirmed, HonestHost;
    forall k | k in q.table && k.playerId in c.players && k.frame < c.From(q.next, c.Kept())
      ensures q.table[k].canonical
    {
      if k.frame >= c.From(p.next, c.Kept()) { assert Confirmed(c, p.table, k.frame); }
    }
  }

  lemma OtherSound<S>(c: Config<S>, host: Host, s: Session<S>, e: Event, t: Session<S>, seen: nat)
    requires Peerlike(c) && Sound(c, host, s, seen) && Goes(c, host, s, e, t) && !Arrives(e)
    requires e.Prepare? && CanStep(c, s.peer.table, s.peer.next) ==> LeavesRight(c, s.peer)
    ensures Sound(c, host, t, seen) && e != Prepare(Resync)
  {
    if e.Queue? {
      QueueSound(c, host, s, e, t, seen);
    } else if e.Prepare? {
      PrepareSound(c, host, s, e, t, seen);
    } else {
      EventOrderly(c, host, s, e, t, seen);
      hide Faithful, RequestsFrom, HeardBelow, AtRest, Orderly, HostMay;
    }
  }

  // ----- a host that goes without -----

  // A host that is stuck keeps the peer within the window of its first frame.
  lemma StuckNear<S>(c: Config<S>, s: Session<S>, seen: nat, g: nat)
    requires Stuck(c, s, g) && Orderly(c, s, seen)
    ensures s.peer.next <= c.base + c.window
    ensures LeavesRight(c, s.peer)
  {
    hide AtRest, HeardBelow;
  }

  lemma StuckSound<S>(c: Config<S>, host: Host, s: Session<S>, e: Event, t: Session<S>, heard: nat, g: nat)
    returns (seen: nat)
    requires Peerlike(c) && Sound(c, host, s, heard) && Stuck(c, s, g) && Goes(c, host, s, e, t)
    ensures Sound(c, host, t, seen) && Stuck(c, t, g) && e != Prepare(Resync)
  {
    StuckStays(c, host, s, e, t, g);
    StuckNear(c, s, heard, g);
    seen := heard;
    if Arrives(e) {
      assert e.last < s.hostNext;
      hide Stuck, Sound, Goes;
      ArrivalSound(c, host, s, e, t, heard, e.last + 1);
      seen := Max(heard, e.last + 1);
    } else {
      hide Stuck, Sound, Goes;
      OtherSound(c, host, s, e, t, heard);
    }
  }

  lemma {:induction false} RunStuck<S(!new)>(
    c: Config<S>, host: Host, held: set<nat>, g: nat, events: seq<Event>, s: Session<S>) returns (seen: nat)
    requires Peerlike(c) && HeldAtStart(c, held) && Skipped(c, held, g)
    requires Runs(c, host, Started(c, host, held), events, s)
    ensures Sound(c, host, s, seen) && Stuck(c, s, g) && Prepare(Resync) !in events
    decreases |events|
  {
    if events == [] {
      StartSound(c, host, held);
      return c.base;
    }
    hide Goes, Runs, Sound, Stuck, Peerlike, Started, HeldAtStart;
    var front, m, e := LastStep(c, host, Started(c, host, held), events, s);
    seen := RunStuck(c, host, held, g, front, m);
    seen := StuckSound(c, host, m, e, s, seen, g);
  }

  /**
   If there are frames the host never gets the peer's inputs for, it never decides the first of them;
   no resync is asked for and nothing ever leaves the window, whatever is lost.
   */
  lemma UnfedRun<S(!new)>(c: Config<S>, host: Host, held: set<nat>, events: seq<Event>, s: Session<S>, g: nat)
    requires Peerlike(c) && Reached(c, host, held, events, s) && Skipped(c, held, g)
    ensures s.hostNext <= g && s.peer.next <= c.base + c.window
    ensures Prepare(Resync) !in events && Faithful(c, s.peer, host.truth) && RightAtRest(c, host, s)
  {
    var seen := RunStuck(c, host, held, g, events, s);
    StuckNear(c, s, seen, g);
    hide Orderly;
    SoundRight(c, host, s, seen);
  }

  // ----- runs in which everything is heard in time -----

  ghost predicate ConfirmedFrom<S>(c: Config<S>, table: Table, low: nat, seen: nat) {
    forall f :: low <= f < seen ==> Confirmed(c, table, f)
  }

  /** Inside the input window, everything the host sent below seen has been heard. */
  ghost predicate Streamed<S>(c: Config<S>, host: Host, s: Session<S>, seen: nat) {
    Sound(c, host, s, seen) && ConfirmedFrom(c, s.peer.table, c.From(s.peer.next, c.History()), seen)
  }

  lemma StartStreams<S>(c: Config<S>, host: Host, held: set<nat>)
    requires HeldAtStart(c, held)
    ensures Streamed(c, host, Started(c, host, held), c.base)
  {
    StartSound(c, host, held);
    hide Sound;
  }

  lemma QueueConfirms<S>(c: Config<S>, host: Host, s: Session<S>, e: Event, t: Session<S>, low: nat, seen: nat)
    requires e.Queue? && Goes(c, host, s, e, t) && ConfirmedFrom(c, s.peer.table, low, seen)
    requires AllFirm(s.peer.table)
    ensures ConfirmedFrom(c, t.peer.table, low, seen)
  {
    QueuedFramesAre(c, s.peer.table, s.queued, t.queued - s.queued, e.own, e.sequence);
    hide QueuedFrames;
    forall f | low <= f < seen ensures Confirmed(c, t.peer.table, f) {
      assert Confirmed(c, s.peer.table, f);
    }
  }

  // All the records of some frames and no others, that start no later than what was heard so far.
  ghost predicate Reaching<S>(c: Config<S>, host: Host, s: Session<S>, e: Event, seen: nat, lo: nat, hi: nat) {
    && Arrives(e) && hi <= s.hostNext
    && (forall k :: Names(Heard(c, host, e), k) <==> lo <= k.frame < hi && k.playerId in c.players)
    && (lo <= seen || lo <= c.From(s.peer.next, c.History()))
  }

  lemma ArrivalStreams<S>(
    c: Config<S>, host: Host, s: Session<S>, e: Event, t: Session<S>, seen: nat, lo: nat, hi: nat)
    requires Peerlike(c) && Streamed(c, host, s, seen) && Goes(c, host, s, e, t) &&
             Reaching(c, host, s, e, seen, lo, hi)
    ensures Streamed(c, host, t, Max(seen, hi))
  {
    hide Goes, Sound, ConfirmedFrom, Names, Heard, Taken;
    ArrivalSound(c, host, s, e, t, seen, hi);
    hide Reaching;
    ArrivalConfirms(c, host, s, e, t, seen, lo, hi);
  }

  lemma ArrivalConfirms<S>(
    c: Config<S>, host: Host, s: Session<S>, e: Event, t: Session<S>, seen: nat, lo: nat, hi: nat)
    requires Reaching(c, host, s, e, seen, lo, hi) && Taken(s.peer, Heard(c, host, e), t.peer)
    requires ConfirmedFrom(c, s.peer.table, c.From(s.peer.next, c.History()), seen)
    ensures ConfirmedFrom(c, t.peer.table, c.From(s.peer.next, c.History()), Max(seen, hi))
  {
    hide Heard, Names;
    forall f | c.From(s.peer.next, c.History()) <= f < Max(seen, hi) ensures Confirmed(c, t.peer.table, f) {
      assert f < seen ==> Confirmed(c, s.peer.table, f);
      forall i | 0 <= i < |c.players|
        ensures Key(c.players[i], f) in t.peer.table && t.peer.table[Key(c.players[i], f)].canonical
      {
        var k := Key(c.players[i], f);
        assert f >= seen ==> Names(Heard(c, host, e), k);
      }
    }
  }

  // A burst starts no later than what was heard so far, if the window is short.
  lemma BurstReaches<S>(c: Config<S>, host: Host, s: Session<S>, e: Event, seen: nat)
    requires Short(c) && InStep(c, s, seen) && e.BurstArrives? && e.last < s.hostNext
    ensures Reaching(c, host, s, e, seen, First(c, e.last), e.last + 1)
  {
    forall k ensures Names(Heard(c, host, e), k) <==>
                     First(c, e.last) <= k.frame < e.last + 1 && k.playerId in c.players {
      BurstCarries(c, host, e.last, k);
    }
    hide Heard, Names;
  }

  /** Preparing a frame never asks for a resync, and keeps the invariant. */
  lemma PrepareStreams<S>(c: Config<S>, host: Host, s: Session<S>, e: Event, t: Session<S>, seen: nat)
    requires Peerlike(c) && Streamed(c, host, s, seen) && e.Prepare? && Goes(c, host, s, e, t)
    ensures e.result != Resync && Streamed(c, host, t, seen)
  {
    StreamedLeavesRight(c, host, s, seen);
    hide Sound, LeavesRight, Goes, CanStep, PreparedWell, ConfirmedFrom;
    PrepareSound(c, host, s, e, t, seen);
    PreparedConfirms(c, s.peer, e.result, t.peer, host.truth, seen);
  }

  lemma StreamedLeavesRight<S>(c: Config<S>, host: Host, s: Session<S>, seen: nat)
    requires Peerlike(c) && Streamed(c, host, s, seen)
    ensures CanStep(c, s.peer.table, s.peer.next) ==> LeavesRight(c, s.peer)
  {
    if CanStep(c, s.peer.table, s.peer.next) { StepHeard(c, s.peer.table, s.peer.next, seen); }
    hide AtRest, CanStep, Faithful, Confirmed, HeardBelow, RequestsFrom;
  }

  lemma PreparedConfirms<S>(c: Config<S>, p: Peer<S>, result: Prepared, q: Peer<S>, truth: Truth, seen: nat)
    requires PreparedWell(c, p, result, q, truth) && ConfirmedFrom(c, p.table, c.From(p.next, c.History()), seen)
    ensures ConfirmedFrom(c, q.table, c.From(q.next, c.History()), seen)
  {
    hide AtRest, CanStep, Faithful, Shared, LeavesConfirmed;
    forall f | c.From(q.next, c.History()) <= f < seen ensures Confirmed(c, q.table, f) {
      assert Confirmed(c, p.table, f);
    }
  }

  lemma EventStreams<S>(c: Config<S>, host: Host, s: Session<S>, e: Event, t: Session<S>, heard: nat)
    returns (seen: nat)
    requires Short(c) && Peerlike(c) && Streamed(c, host, s, heard) && Goes(c, host, s, e, t) && !e.PacketArrives?
    ensures Streamed(c, host, t, seen) && e != Prepare(Resync)
  {
    seen := heard;
    if e.BurstArrives? {
      BurstReaches(c, host, s, e, heard);
      ArrivalStreams(c, host, s, e, t, heard, First(c, e.last), e.last + 1);
      seen := Max(heard, e.last + 1);
    } else {
      OtherStreams(c, host, s, e, t, heard);
    }
  }

  lemma OtherStreams<S>(c: Config<S>, host: Host, s: Session<S>, e: Event, t: Session<S>, seen: nat)
    requires Peerlike(c) && Streamed(c, host, s, seen) && Goes(c, host, s, e, t) && !Arrives(e)
    ensures Streamed(c, host, t, seen) && e != Prepare(Resync)
  {
    if e.Prepare? {
      PrepareStreams(c, host, s, e, t, seen);
    } else {
      assert AllFirm(s.peer.table);
      hide Sound, ConfirmedFrom, AllFirm;
      OtherSound(c, host, s, e, t, seen);
      if e.Queue? { QueueConfirms(c, host, s, e, t, c.From(s.peer.next, c.History()), seen); }
      hide QueuedFrames, HostMay;
    }
  }

  lemma {:induction false} RunStreams<S(!new)>(
    c: Config<S>, host: Host, held: set<nat>, events: seq<Event>, s: Session<S>) returns (seen: nat)
    requires Short(c) && Peerlike(c) && WholeBursts(events)
    requires HeldAtStart(c, held) && Runs(c, host, Started(c, host, held), events, s)
    ensures Streamed(c, host, s, seen) && Prepare(Resync) !in events
    decreases |events|
  {
    if events == [] {
      StartStreams(c, host, held);
      return c.base;
    }
    hide Goes, Runs, Streamed, Short, Peerlike, Started, HeldAtStart;
    var front, m, e := LastStep(c, host, Started(c, host, held), events, s);
    seen := RunStreams(c, host, held, front, m);
    seen := EventStreams(c, host, m, e, s, seen);
  }

  ghost predicate WindowConfirmed<S>(c: Config<S>, p: Peer<S>) {
    forall f :: c.From(p.next, c.History()) <= f < p.next ==> Confirmed(c, p.table, f)
  }

  // A peer at rest whose window is confirmed is where the host was.
  ghost predicate RightAtRest<S>(c: Config<S>, host: Host, s: Session<S>) {
    s.peer.requested.None? && WindowConfirmed(c, s.peer) ==>
      s.peer.state == Fold(c, TruthUpTo(c, host.truth, s.peer.next))
  }

  /**
   With a window of at most 12 frames, wherever the session begins and whatever bursts are lost,
   late or doubled, no resync is ever asked for, what has left the window was stepped on the
   host's inputs, and the peer's state is the host's whenever the window is confirmed and nothing
   is requested.
   */
  lemma SafeRun<S(!new)>(c: Config<S>, host: Host, held: set<nat>, events: seq<Event>, s: Session<S>)
    requires Short(c) && Peerlike(c) && WholeBursts(events) && Reached(c, host, held, events, s)
    ensures Prepare(Resync) !in events && Faithful(c, s.peer, host.truth) && RightAtRest(c, host, s)
  {
    var seen := RunStreams(c, host, held, events, s);
    SoundRight(c, host, s, seen);
  }

  lemma SoundRight<S>(c: Config<S>, host: Host, s: Session<S>, seen: nat)
    requires Sound(c, host, s, seen)
    ensures RightAtRest(c, host, s)
  {
    if s.peer.requested.None? && WindowConfirmed(c, s.peer) { Converged(c, s.peer, host.truth); }
  }

  lemma HeardCatchesUp<S>(c: Config<S>, host: Host, s: Session<S>, seen: nat)
    requires Streamed(c, host, s, seen) && s.peer.next <= seen
    ensures CaughtUp(c, s.peer, host.truth)
  {
    var p := s.peer;
    ReplayedKeeps(c, p);
    hide AtRest, Replayed, Confirmed, Fold, TruthUpTo, HonestHost, PastIsTrue, HeardBelow;
    assert Replayed(c, p).table == p.table && WindowConfirmed(c, Replayed(c, p));
    ReplayFaithful(c, p, Replayed(c, p), host.truth);
    ReplayedConverged(c, Replayed(c, p), host.truth);
  }

  // The replay finds its snapshot and ends on the host's state.
  ghost predicate CaughtUp<S>(c: Config<S>, p: Peer<S>, truth: Truth) {
    && !SnapshotMissing(p) && (p.requested.Some? ==> p.requested.value <= |p.used|)
    && Replayed(c, p).next == p.next
    && Replayed(c, p).state == Fold(c, TruthUpTo(c, truth, p.next))
  }

  /** One burst with the peer's last frame is enough: the replay it asks for ends on the host's state. */
  lemma CatchesUp<S(!new)>(
    c: Config<S>, host: Host, held: set<nat>, events: seq<Event>, s: Session<S>, last: nat)
    requires Short(c) && Peerlike(c) && WholeBursts(events) && Reached(c, host, held, events, s)
    requires last < s.hostNext && s.peer.next <= last + 1
    ensures CaughtUp(c, CanonicalStored(s.peer, Burst(c, host, last)), host.truth)
  {
    assert HeldAtStart(c, held) && Runs(c, host, Started(c, host, held), events, s);
    hide *;
    var seen := RunStreams(c, host, held, events, s);
    StreamedCatchesUp(c, host, s, last, seen);
  }

  lemma StreamedCatchesUp<S>(c: Config<S>, host: Host, s: Session<S>, last: nat, seen: nat)
    requires Short(c) && Peerlike(c) && Streamed(c, host, s, seen) && last < s.hostNext && s.peer.next <= last + 1
    ensures CaughtUp(c, CanonicalStored(s.peer, Burst(c, host, last)), host.truth)
  {
    var t := s.(peer := CanonicalStored(s.peer, Burst(c, host, last)));
    assert t.peer.next == s.peer.next by { StoresOnly(s.peer, Burst(c, host, last)); }
    hide Streamed, CaughtUp, Short, CanonicalStored, Burst;
    var _ := EventStreams(c, host, s, BurstArrives(last), t, seen);
    BurstSeen(c, host, s, last, t, seen);
  }

  lemma BurstSeen<S>(c: Config<S>, host: Host, s: Session<S>, last: nat, t: Session<S>, seen: nat)
    requires Short(c) && Peerlike(c) && Streamed(c, host, s, seen) && Goes(c, host, s, BurstArrives(last), t)
    requires t.peer.next <= last + 1
    ensures CaughtUp(c, t.peer, host.truth)
  {
    hide CaughtUp, CanonicalStored, Burst, Reaching, AtRest, Faithful, RequestsFrom, ConfirmedFrom, HeardBelow;
    BurstReaches(c, host, s, BurstArrives(last), seen);
    hide InStep, Short;
    ArrivalStreams(c, host, s, BurstArrives(last), t, seen, First(c, last), last + 1);
    hide Streamed, Goes;
    HeardCatchesUp(c, host, t, Max(seen, last + 1));
  }

  lemma {:induction false} StoresOnly<S>(p: Peer<S>, records: seq<Record>)
    ensures var q := CanonicalStored(p, records); q == p.(table := q.table, requested := q.requested)
  {
    if records != [] { StoresOnly(p, records[..|records| - 1]); }
  }

  lemma ReplayedConverged<S>(c: Config<S>, p: Peer<S>, truth: Truth)
    requires Faithful(c, p, truth) && p.requested.None? && WindowConfirmed(c, p)
    ensures p.state == Fold(c, TruthUpTo(c, truth, p.next))
  {
    Converged(c, p, truth);
  }
}
