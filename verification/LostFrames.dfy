/**
 Runs in which a frame is lost for good, so that the conditions of the safe runs are exact: a
 session whose inputs are all neutral but one, and a peer that never hears of that one.
 */
module LostFrames {
  import opened Options
  import opened InputFrames
  import opened InputBuffer
  import opened Snapshots
  import opened PeerRollback
  import opened HostStream

  // The state is the list of the inputs stepped.
  type Trace = seq<seq<InputFrame>>

  function Append(s: Trace, inputs: seq<InputFrame>): Trace { s + [inputs] }

  ghost predicate Traced(c: Config<Trace>) { c.tick == Append && c.init == [] && Peerlike(c) }

  // A session in which one remote player goes left at frame x, and nothing else ever happens; the
  // host holds some inputs of the peer when it begins.
  datatype Plan = Plan(c: Config<Trace>, held: set<nat>, who: nat, x: nat)
  {
    function Decides(): Host {
      Host((p: nat, f: nat) => if p == who && f == x then Other(NEUTRAL) else NEUTRAL, (_, _) => 0)
    }
  }

  ghost predicate Planned(plan: Plan) {
    && Traced(plan.c) && plan.who in plan.c.players && plan.who !in plan.c.locals && plan.c.base <= plan.x
    && HeldAtStart(plan.c, plan.held)
  }

  function IdleRow(c: Config<Trace>): seq<InputFrame> { seq(|c.players|, _ => NEUTRAL) }

  function Idle(c: Config<Trace>, n: nat): Trace { seq(n, _ => IdleRow(c)) }

  lemma {:induction false} FoldIsTrace(c: Config<Trace>, used: Trace)
    requires Traced(c)
    ensures Fold(c, used) == used
    decreases |used|
  {
    if used != [] {
      FoldIsTrace(c, used[..|used| - 1]);
      assert used == used[..|used| - 1] + [used[|used| - 1]];
    }
  }

  lemma TruthIsIdle(plan: Plan, n: nat)
    requires n <= plan.x
    ensures TruthUpTo(plan.c, plan.Decides().truth, n) == Idle(plan.c, n)
  {
    var truth := plan.Decides().truth;
    forall f: nat | f < n ensures TruthAt(plan.c, truth, f) == IdleRow(plan.c) {}
  }

  ghost predicate AllNeutral(table: Table) {
    forall k :: k in table ==> table[k].input == NEUTRAL
  }

  // The peer knows nothing but neutral inputs.
  ghost predicate Blind(c: Config<Trace>, p: Peer<Trace>) {
    AllNeutral(p.table) && p.requested.None? && p.used == Idle(c, p.next)
  }

  // The last actual input of every remote player is just below seen.
  ghost predicate LastHeard(c: Config<Trace>, table: Table, seen: nat) {
    && HeardBelow(c, table, seen)
    && (seen > c.base ==> forall i :: 0 <= i < |c.players| ==>
          Key(c.players[i], seen - 1) in table && !table[Key(c.players[i], seen - 1)].predicted)
  }

  ghost predicate OwnReady<S>(c: Config<S>, table: Table, next: nat, queued: nat) {
    forall i, f: nat :: 0 <= i < |c.players| && c.players[i] in c.locals && next <= f < queued ==>
      Key(c.players[i], f) in table
  }

  // The host holds all the inputs the peer has queued.
  ghost predicate Supplied(c: Config<Trace>, s: Session<Trace>) {
    forall f :: c.base <= f < s.queued ==> f in s.held
  }

  // The peer has its inputs queued and knows of nothing but neutral ones; all is confirmed between y and seen.
  ghost predicate PeerReady(c: Config<Trace>, s: Session<Trace>, seen: nat, y: nat) {
    && AtRest(c, s.peer) && Blind(c, s.peer) && s.peer.next + c.delay < s.queued
    && OwnReady(c, s.peer.table, s.peer.next, s.queued) && LastHeard(c, s.peer.table, seen)
    && ConfirmedFrom(c, s.peer.table, Max(y, c.From(s.peer.next, c.History())), seen)
  }

  // Peer and host at the end of a tick; all is confirmed between y and seen.
  ghost predicate Ticked(c: Config<Trace>, s: Session<Trace>, seen: nat, y: nat) {
    && AtRest(c, s.peer) && Blind(c, s.peer) && c.base <= seen <= s.hostNext == s.peer.next + Lead(c) + 1
    && s.queued == s.peer.next + c.delay + 1 && Supplied(c, s)
    && OwnReady(c, s.peer.table, s.peer.next, s.queued) && LastHeard(c, s.peer.table, seen)
    && ConfirmedFrom(c, s.peer.table, Max(y, c.From(s.peer.next, c.History())), seen)
  }

  // ----- a burst or a packet -----

  // It brings the records of its last frame, and not what the plan is about.
  ghost predicate Misses(plan: Plan, e: Event) {
    && Arrives(e) && !Names(Heard(plan.c, plan.Decides(), e), Key(plan.who, plan.x))
    && forall i :: 0 <= i < |plan.c.players| ==> Names(Heard(plan.c, plan.Decides(), e), Key(plan.c.players[i], e.last))
  }

  lemma BurstMisses(plan: Plan, last: nat)
    requires plan.x < First(plan.c, last) || last < plan.x
    ensures Misses(plan, BurstArrives(last))
  {
    var c, host := plan.c, plan.Decides();
    BurstCarries(c, host, last, Key(plan.who, plan.x));
    forall i | 0 <= i < |c.players| ensures Names(Burst(c, host, last), Key(c.players[i], last)) {
      BurstCarries(c, host, last, Key(c.players[i], last));
    }
    hide Burst, Names;
  }

  // Neutral records change no input and ask for nothing.
  lemma {:induction false} NeutralTaken(c: Config<Trace>, p: Peer<Trace>, records: seq<Record>)
    requires Blind(c, p) && forall i :: 0 <= i < |records| ==> records[i].input == NEUTRAL
    ensures Blind(c, CanonicalStored(p, records))
  {
    if records != [] {
      var n := |records| - 1;
      assert forall i :: 0 <= i < n ==> records[..n][i] == records[i];
      NeutralTaken(c, p, records[..n]);
      hide Idle;
    }
  }

  lemma MissedIsNeutral(plan: Plan, e: Event)
    requires Planned(plan) && Misses(plan, e)
    ensures var records := Heard(plan.c, plan.Decides(), e);
            forall i :: 0 <= i < |records| ==> records[i].input == NEUTRAL
  {
    var c, host := plan.c, plan.Decides();
    var records := Heard(c, host, e);
    HeardCanonical(c, host, e);
    forall i | 0 <= i < |records| ensures records[i].input == NEUTRAL {
      assert records[i].KeyOf() != Key(plan.who, plan.x);
      assert records[i].canonical && records[i].input == host.truth(records[i].playerId, records[i].frame);
    }
  }

  /** Something the host sent arrives, without the frame that is lost. */
  lemma Arrive(plan: Plan, s: Session<Trace>, e: Event, seen: nat, y: nat) returns (t: Session<Trace>)
    requires Planned(plan) && Ticked(plan.c, s, seen, y) && Misses(plan, e)
    requires plan.c.base <= e.last < s.hostNext && seen <= e.last + 1 && (y >= e.last || seen == e.last)
    ensures Goes(plan.c, plan.Decides(), s, e, t) && Ticked(plan.c, t, e.last + 1, y) && t == s.(peer := t.peer)
    ensures t.peer.next == s.peer.next
  {
    assert Arrives(e) && (e.BurstArrives? || e.PacketArrives?);
    hide *;
    var c, host, p := plan.c, plan.Decides(), s.peer;
    var records := Heard(c, host, e);
    t := ArrivalGoes(plan, s, e);
    TickedParts(c, s, seen, y);
    PeerReadyIs(c, s, seen, y);
    PlanPlayers(plan);
    MissedIsNeutral(plan, e);
    NeutralTaken(c, p, records);
    HeardCanonical(c, host, e);
    RestKeyed(c, p);
    CanonicalTaken(c, p, records, host.truth);
    CanonicalRests(c, p, records);
    ArrivedTicks(plan, p, e, t.peer, seen, y);
    TakenReady(c, p, records, t.peer, s.queued);
    TickedAgain(c, t, e.last + 1, y);
  }

  lemma ArrivalGoes(plan: Plan, s: Session<Trace>, e: Event) returns (t: Session<Trace>)
    requires Misses(plan, e) && e.last < s.hostNext
    ensures Arrives(e) && Goes(plan.c, plan.Decides(), s, e, t) && t == s.(peer := t.peer)
    ensures t.peer == CanonicalStored(s.peer, Heard(plan.c, plan.Decides(), e)) && t.peer.next == s.peer.next
  {
    hide CanonicalStored, Heard, Names;
    t := s.(peer := CanonicalStored(s.peer, Heard(plan.c, plan.Decides(), e)));
    StoresOnly(s.peer, Heard(plan.c, plan.Decides(), e));
  }

  lemma TickedParts(c: Config<Trace>, s: Session<Trace>, seen: nat, y: nat)
    requires Ticked(c, s, seen, y)
    ensures PeerReady(c, s, seen, y) && c.base <= seen <= s.hostNext == s.peer.next + Lead(c) + 1
    ensures s.queued == s.peer.next + c.delay + 1
    ensures forall t: Session<Trace> :: t == s.(peer := t.peer) ==> Supplied(c, t)
  {
    hide AtRest, Blind, OwnReady, LastHeard, ConfirmedFrom;
  }

  lemma TakenReady(c: Config<Trace>, p: Peer<Trace>, records: seq<Record>, q: Peer<Trace>, queued: nat)
    requires Taken(p, records, q) && OwnReady(c, p.table, p.next, queued)
    ensures OwnReady(c, q.table, q.next, queued)
  {
    hide Names;
  }

  lemma RestKeyed<S>(c: Config<S>, p: Peer<S>)
    requires AtRest(c, p)
    ensures Keyed(p.table)
  {
  }

  lemma ArrivedTicks(plan: Plan, p: Peer<Trace>, e: Event, q: Peer<Trace>, seen: nat, y: nat)
    requires Misses(plan, e) && Taken(p, Heard(plan.c, plan.Decides(), e), q)
    requires forall k :: Names(Heard(plan.c, plan.Decides(), e), k) ==> Names(Burst(plan.c, plan.Decides(), e.last), k)
    requires LastHeard(plan.c, p.table, seen) && seen <= e.last + 1 && (y >= e.last || seen == e.last)
    requires ConfirmedFrom(plan.c, p.table, Max(y, plan.c.From(p.next, plan.c.History())), seen)
    ensures LastHeard(plan.c, q.table, e.last + 1)
    ensures ConfirmedFrom(plan.c, q.table, Max(y, plan.c.From(p.next, plan.c.History())), e.last + 1)
  {
    var c, host := plan.c, plan.Decides();
    forall k | Names(Heard(c, host, e), k) ensures k.frame <= e.last { BurstCarries(c, host, e.last, k); }
    hide Burst, Heard, Names;
    forall f | Max(y, c.From(p.next, c.History())) <= f < e.last + 1 ensures Confirmed(c, q.table, f) {
      assert f < seen ==> Confirmed(c, p.table, f);
    }
  }

  // ----- a tick in which nothing arrives -----

  // Predictions for the remote players among the first n, where there is nothing of them yet.
  function Guessed(c: Config<Trace>, table: Table, next: nat, n: nat): Table
    requires n <= |c.players|
  {
    if n == 0 then table
    else
      var rest, id := Guessed(c, table, next, n - 1), c.players[n - 1];
      if id in c.locals || Key(id, next) in rest then rest
      else rest[Key(id, next) := Record(id, next, 0, NEUTRAL, true, false, false)]
  }

  lemma {:induction false} GuessedBeside(c: Config<Trace>, table: Table, next: nat, n: nat)
    requires n <= |c.players|
    ensures var longer := Guessed(c, table, next, n);
            && (forall k :: k in table ==> k in longer && longer[k] == table[k])
            && (forall k :: k in longer && k !in table ==>
                  k.frame == next && k.playerId in c.players && k.playerId !in c.locals &&
                  longer[k] == Record(k.playerId, next, 0, NEUTRAL, true, false, false))
            && forall i :: 0 <= i < n && c.players[i] !in c.locals ==> Key(c.players[i], next) in longer
  {
    if n > 0 { GuessedBeside(c, table, next, n - 1); }
  }

  lemma NeutralRepeats(table: Table, playerId: nat, frame: nat)
    requires AllNeutral(table)
    ensures Repeats(table, playerId, frame, NEUTRAL)
  {
  }

  lemma GuessPredicts(c: Config<Trace>, table: Table, next: nat, n: nat)
    requires n <= |c.players| && INVALID_PLAYER_ID !in c.players && Keyed(table) && AllNeutral(table)
    ensures Predicts(c, table, next, Guessed(c, table, next, n)) && AllNeutral(Guessed(c, table, next, n))
    ensures forall i :: 0 <= i < n && c.players[i] !in c.locals ==>
              Key(c.players[i], next) in Guessed(c, table, next, n)
  {
    GuessedBeside(c, table, next, n);
    hide Guessed;
    NeutralGuesses(c, table, next, Guessed(c, table, next, n));
  }

  lemma NeutralGuesses(c: Config<Trace>, table: Table, next: nat, longer: Table)
    requires INVALID_PLAYER_ID !in c.players && Keyed(table) && AllNeutral(table)
    requires forall k :: k in table ==> k in longer && longer[k] == table[k]
    requires forall k :: k in longer && k !in table ==>
               k.frame == next && k.playerId in c.players && k.playerId !in c.locals &&
               longer[k] == Record(k.playerId, next, 0, NEUTRAL, true, false, false)
    ensures Predicts(c, table, next, longer) && AllNeutral(longer)
  {
    hide Repeats;
    forall k | k in longer && k !in table ensures Repeats(table, k.playerId, next, longer[k].input) {
      NeutralRepeats(table, k.playerId, next);
    }
  }

  // The table the next frame is stepped on.
  function Longer(c: Config<Trace>, p: Peer<Trace>): Table { Guessed(c, p.table, p.next, |c.players|) }

  lemma LongerIs(c: Config<Trace>, p: Peer<Trace>, queued: nat)
    requires INVALID_PLAYER_ID !in c.players && AtRest(c, p) && AllNeutral(p.table)
    requires OwnReady(c, p.table, p.next, queued) && p.next < queued
    ensures Predicts(c, p.table, p.next, Longer(c, p)) && AllNeutral(Longer(c, p))
    ensures AllPresent(c, Longer(c, p), p.next) && LocalsPresent(c, p.table, p.next)
  {
    RestKeyed(c, p);
    GuessPredicts(c, p.table, p.next, |c.players|);
    hide Guessed, Repeats, AtRest, AllNeutral;
  }

  lemma MayStep(c: Config<Trace>, table: Table, next: nat, seen: nat)
    requires LastHeard(c, table, seen) && c.base < seen && c.delay < seen && next + c.delay < seen + c.window
    ensures CanStep(c, table, next)
  {
    forall i | 0 <= i < |c.players| && c.players[i] !in c.locals ensures NearEnough(c, table, c.players[i], next) {
      assert IsLatest(table, c.players[i], seen - 1);
    }
  }

  // The peer steps its next frame.
  lemma Step(plan: Plan, s: Session<Trace>, seen: nat, y: nat) returns (t: Session<Trace>)
    requires Planned(plan) && PeerReady(plan.c, s, seen, y) && plan.c.base < seen
    requires plan.c.delay < seen && s.peer.next + plan.c.delay < seen + plan.c.window
    ensures Goes(plan.c, plan.Decides(), s, Prepare(Stepping), t) && t == s.(peer := t.peer)
    ensures t.peer.next == s.peer.next + 1 && AtRest(plan.c, t.peer) && Blind(plan.c, t.peer)
    ensures OwnReady(plan.c, t.peer.table, t.peer.next, s.queued) && LastHeard(plan.c, t.peer.table, seen)
    ensures ConfirmedFrom(plan.c, t.peer.table, Max(y, plan.c.From(t.peer.next, plan.c.History())), seen)
  {
    hide *;
    var c, p := plan.c, s.peer;
    var r := p.(table := Longer(c, p));
    t := s.(peer := NewFrame(c, r));
    PlanPlayers(plan);
    PeerReadyIs(c, s, seen, y);
    BlindIs(c, p);
    LongerIs(c, p, s.queued);
    MayStep(c, p.table, p.next, seen);
    StepGoes(c, plan.Decides(), s, t);
    NewFrameTable(c, r);
    StepRests(c, p, s.queued);
    StepBlind(c, r, p);
    StepTable(c, p.table, p.next, s.queued, seen, y);
    LongerUnfolds(c, p);
  }

  lemma PeerReadyIs(c: Config<Trace>, s: Session<Trace>, seen: nat, y: nat)
    ensures PeerReady(c, s, seen, y) <==>
            && AtRest(c, s.peer) && Blind(c, s.peer) && s.peer.next + c.delay < s.queued
            && OwnReady(c, s.peer.table, s.peer.next, s.queued) && LastHeard(c, s.peer.table, seen)
            && ConfirmedFrom(c, s.peer.table, Max(y, c.From(s.peer.next, c.History())), seen)
  {
  }

  lemma TickedIs(c: Config<Trace>, s: Session<Trace>, seen: nat, y: nat)
    requires Ticked(c, s, seen, y)
    ensures PeerReady(c, s, seen, y)
  {
    hide AtRest, Blind, OwnReady, LastHeard, ConfirmedFrom;
  }

  lemma LongerUnfolds(c: Config<Trace>, p: Peer<Trace>)
    ensures Longer(c, p) == Guessed(c, p.table, p.next, |c.players|)
  {
  }

  lemma PlanPlayers(plan: Plan)
    requires Planned(plan)
    ensures INVALID_PLAYER_ID !in plan.c.players
  {
  }

  lemma BlindIs(c: Config<Trace>, p: Peer<Trace>)
    requires Blind(c, p)
    ensures p.requested.None? && AllNeutral(p.table)
  {
  }

  lemma StepGoes(c: Config<Trace>, host: Host, s: Session<Trace>, t: Session<Trace>)
    requires s.peer.requested.None? && CanStep(c, s.peer.table, s.peer.next)
    requires LocalsPresent(c, s.peer.table, s.peer.next) && s.peer.next + c.delay < s.queued
    requires Predicts(c, s.peer.table, s.peer.next, Longer(c, s.peer)) && AllPresent(c, Longer(c, s.peer), s.peer.next)
    requires t == s.(peer := NewFrame(c, s.peer.(table := Longer(c, s.peer))))
    ensures Goes(c, host, s, Prepare(Stepping), t)
  {
    hide Repeats, CanStep, AllPresent, LocalsPresent, Predicts, Longer, NewFrame;
    assert Replayed(c, s.peer) == s.peer;
    assert BuiltWith(c, s.peer, Longer(c, s.peer), Stepping, t.peer);
  }

  lemma StepRests(c: Config<Trace>, p: Peer<Trace>, queued: nat)
    requires INVALID_PLAYER_ID !in c.players && AtRest(c, p) && AllNeutral(p.table) && p.requested.None?
    requires OwnReady(c, p.table, p.next, queued) && p.next < queued
    ensures AtRest(c, NewFrame(c, p.(table := Longer(c, p))))
  {
    hide AtRest, Repeats, Longer, NewFrame, AllNeutral, Faithful, LeavesConfirmed, Confirmed, OwnReady, LocalsPresent;
    LongerIs(c, p, queued);
    var r := p.(table := Longer(c, p));
    ExtendRests(c, p, r.table, (_, _) => NEUTRAL);
    hide Predicts, AllPresent;
    NewFrameRests(c, r, (_, _) => NEUTRAL);
  }

  lemma StepBlind(c: Config<Trace>, r: Peer<Trace>, p: Peer<Trace>)
    requires AllNeutral(r.table) && Blind(c, p) && r == p.(table := r.table) && AllPresent(c, r.table, r.next)
    ensures Blind(c, NewFrame(c, r))
  {
    NewFrameUses(c, r);
    NewFrameTable(c, r);
    assert InputsAt(c, r.table, r.next) == IdleRow(c);
    assert Idle(c, r.next + 1) == Idle(c, r.next) + [IdleRow(c)];
  }

  lemma StepTable(c: Config<Trace>, table: Table, next: nat, queued: nat, seen: nat, y: nat)
    requires c.base < seen && next + c.delay < seen + c.window && OwnReady(c, table, next, queued)
    requires LastHeard(c, table, seen) && ConfirmedFrom(c, table, Max(y, c.From(next, c.History())), seen)
    ensures var after := KeptFrom(Guessed(c, table, next, |c.players|), Low(next + 1, c.History()));
            && LastHeard(c, after, seen) && OwnReady(c, after, next + 1, queued)
            && ConfirmedFrom(c, after, Max(y, c.From(next + 1, c.History())), seen)
  {
    GuessedBeside(c, table, next, |c.players|);
    hide Guessed;
    var after := KeptFrom(Guessed(c, table, next, |c.players|), Low(next + 1, c.History()));
    forall f | Max(y, c.From(next + 1, c.History())) <= f < seen ensures Confirmed(c, after, f) {
      assert Confirmed(c, table, f);
    }
    assert seen - 1 >= Low(next + 1, c.History());
  }

  lemma NewFrameTable<S>(c: Config<S>, p: Peer<S>)
    ensures NewFrame(c, p).table == KeptFrom(p.table, Low(p.next + 1, c.History()))
    ensures NewFrame(c, p).requested == p.requested && NewFrame(c, p).next == p.next + 1
  {
  }

  // The peer queues its neutral inputs, and its burst arrives.
  lemma QueueUp(plan: Plan, s: Session<Trace>, seen: nat) returns (t: Session<Trace>)
    requires Planned(plan) && AtRest(plan.c, s.peer) && Blind(plan.c, s.peer)
    requires s.peer.next <= s.queued <= s.peer.next + plan.c.delay + 1 && seen <= s.queued
    requires OwnReady(plan.c, s.peer.table, s.peer.next, s.queued) && LastHeard(plan.c, s.peer.table, seen)
    ensures Goes(plan.c, plan.Decides(), s, Queue(_ => NEUTRAL, 0), t)
    ensures t == s.(queued := s.peer.next + plan.c.delay + 1, peer := s.peer.(table := t.peer.table))
    ensures AtRest(plan.c, t.peer) && Blind(plan.c, t.peer)
    ensures OwnReady(plan.c, t.peer.table, t.peer.next, t.queued) && LastHeard(plan.c, t.peer.table, seen)
    ensures forall low: nat :: ConfirmedFrom(plan.c, s.peer.table, low, seen) ==>
                                 ConfirmedFrom(plan.c, t.peer.table, low, seen)
  {
    var c, p, from, n := plan.c, s.peer, s.queued, s.peer.next + plan.c.delay + 1 - s.queued;
    var table := QueuedFrames(c, p.table, from, n, _ => NEUTRAL, 0);
    t := s.(queued := from + n, peer := p.(table := table));
    assert QueueEnd(c, s) == t.queued;
    PlanPlayers(plan);
    assert AllNeutral(p.table);
    hide Planned, Traced, AtRest, QueuedFrames, HonestHost, LastHeard, OwnReady, ConfirmedFrom;
    QueuedFramesKeep(c, p, from, n, _ => NEUTRAL, 0, plan.Decides().truth);
    QueuedFramesAre(c, p.table, from, n, _ => NEUTRAL, 0);
    FramesNeutral(c, p.table, from, n);
    hide OnlyOwn;
    QueueTable(c, p.table, table, p.next, from, n, seen);
  }

  lemma QueueTable(c: Config<Trace>, table: Table, after: Table, next: nat, from: nat, n: nat, seen: nat)
    requires OnlyOwn(c, table, after, from) && OwnReady(c, table, next, from) && LastHeard(c, table, seen)
    requires seen <= from
    requires forall i, f :: 0 <= i < |c.players| && c.players[i] in c.locals && from <= f < from + n ==>
               Key(c.players[i], f) in after
    ensures OwnReady(c, after, next, from + n) && LastHeard(c, after, seen)
    ensures forall low: nat :: ConfirmedFrom(c, table, low, seen) ==> ConfirmedFrom(c, after, low, seen)
  {
    forall low: nat | ConfirmedFrom(c, table, low, seen) ensures ConfirmedFrom(c, after, low, seen) {
      forall f | low <= f < seen ensures Confirmed(c, after, f) { assert Confirmed(c, table, f); }
    }
  }

  lemma {:induction false} FramesNeutral(c: Config<Trace>, table: Table, from: nat, n: nat)
    requires AllNeutral(table)
    ensures AllNeutral(QueuedFrames(c, table, from, n, _ => NEUTRAL, 0))
  {
    if n > 0 {
      hide AllNeutral, Queued;
      FramesNeutral(c, table, from, n - 1);
      var rest := QueuedFrames(c, table, from, n - 1, _ => NEUTRAL, 0);
      QueuedNeutral(c, rest, |c.players|, from + n - 1, n - 1);
    }
  }

  lemma {:induction false} QueuedNeutral(c: Config<Trace>, table: Table, n: nat, frame: nat, sequence: nat)
    requires AllNeutral(table) && n <= |c.players|
    ensures AllNeutral(Queued(c, table, n, frame, _ => NEUTRAL, sequence))
  {
    if n > 0 { QueuedNeutral(c, table, n - 1, frame, sequence); }
  }

  // The host hears the last frames the peer queued, and then holds them all.
  lemma OwnOne(plan: Plan, s: Session<Trace>, known: nat) returns (t: Session<Trace>)
    requires plan.c.base + plan.c.delay < s.queued <= known + INPUT_HISTORY_FRAMES + 1
    requires forall f :: plan.c.base <= f < known ==> f in s.held
    ensures Goes(plan.c, plan.Decides(), s, OwnArrives(s.queued - 1), t)
    ensures t == s.(held := t.held) && Supplied(plan.c, t)
  {
    t := s.(held := s.held + OwnBurst(plan.c, s.queued - 1));
  }

  // ----- whole runs -----

  // A run that ends with a tick done; with whole, no burst in it was torn.
  ghost predicate Went(plan: Plan, events: seq<Event>, s: Session<Trace>, seen: nat, y: nat, whole: bool) {
    && Runs(plan.c, plan.Decides(), Started(plan.c, plan.Decides(), plan.held), events, s)
    && Ticked(plan.c, s, seen, y) && (whole ==> WholeBursts(events)) && s.hostNext == s.peer.next + Lead(plan.c) + 1
    && plan.c.base <= s.peer.next
  }

  // The same without the tick, in the middle of one.
  ghost predicate Going(plan: Plan, events: seq<Event>, s: Session<Trace>, whole: bool) {
    && Runs(plan.c, plan.Decides(), Started(plan.c, plan.Decides(), plan.held), events, s)
    && (whole ==> WholeBursts(events))
  }

  lemma OneMore(plan: Plan, events: seq<Event>, s: Session<Trace>, e: Event, t: Session<Trace>, whole: bool)
    requires Going(plan, events, s, whole) && Goes(plan.c, plan.Decides(), s, e, t) && (whole ==> !e.PacketArrives?)
    ensures Going(plan, events + [e], t, whole)
  {
    hide Goes;
    var longer := events + [e];
    assert longer[..|longer| - 1] == events;
    assert Runs(plan.c, plan.Decides(), Started(plan.c, plan.Decides(), plan.held), longer[..|longer| - 1], s);
  }

  lemma WentOn(plan: Plan, events: seq<Event>, s: Session<Trace>, seen: nat, y: nat, whole: bool)
    requires Going(plan, events, s, whole) && Ticked(plan.c, s, seen, y)
    ensures Went(plan, events, s, seen, y, whole)
  {
    hide Runs;
  }

  lemma WentIs(plan: Plan, events: seq<Event>, s: Session<Trace>, seen: nat, y: nat, whole: bool)
    requires Went(plan, events, s, seen, y, whole)
    ensures Going(plan, events, s, whole) && Ticked(plan.c, s, seen, y)
    ensures plan.c.base <= s.peer.next && s.hostNext == s.peer.next + Lead(plan.c) + 1
  {
    hide Runs, Ticked;
  }

  lemma WentLoosely(plan: Plan, events: seq<Event>, s: Session<Trace>, seen: nat, y: nat)
    requires Went(plan, events, s, seen, y, true)
    ensures Went(plan, events, s, seen, y, false)
  {
    hide Runs, Ticked, WholeBursts;
  }

  lemma HearOne(plan: Plan, events: seq<Event>, s: Session<Trace>, e: Event, seen: nat, y: nat, whole: bool)
    returns (longer: seq<Event>, t: Session<Trace>)
    requires Planned(plan) && Went(plan, events, s, seen, y, whole) && Misses(plan, e) && (whole ==> !e.PacketArrives?)
    requires plan.c.base <= e.last < s.hostNext && seen <= e.last + 1 && (y >= e.last || seen == e.last)
    ensures Went(plan, longer, t, e.last + 1, y, whole) && t == s.(peer := t.peer) && t.peer.next == s.peer.next
  {
    assert Arrives(e);
    hide Ticked, Goes, Misses, Went, Going, Planned;
    WentIs(plan, events, s, seen, y, whole);
    t := Arrive(plan, s, e, seen, y);
    OneMore(plan, events, s, e, t, whole);
    longer := events + [e];
    WentOn(plan, longer, t, e.last + 1, y, whole);
  }

  /** The peer steps and queues, and the host decides one more frame. */
  lemma TickOne(plan: Plan, events: seq<Event>, s: Session<Trace>, seen: nat, y: nat, whole: bool)
    returns (longer: seq<Event>, t: Session<Trace>)
    requires Planned(plan) && Went(plan, events, s, seen, y, whole) && plan.c.base < seen
    requires plan.c.delay < seen && s.peer.next + plan.c.delay < seen + plan.c.window
    ensures Went(plan, longer, t, seen, y, whole) && t.peer.next == s.peer.next + 1 && t.hostNext == s.hostNext + 1
  {
    var c, queue := plan.c, Queue(_ => NEUTRAL, 0);
    hide Went, Going, Planned, AtRest, Blind, OwnReady, LastHeard, ConfirmedFrom, Goes, Max, PeerReady;
    WentIs(plan, events, s, seen, y, whole);
    assert s.queued == s.peer.next + c.delay + 1 && c.base <= seen <= s.hostNext <= s.queued;
    assert forall f :: c.base <= f < s.queued ==> f in s.held;
    TickedIs(c, s, seen, y);
    var a := Step(plan, s, seen, y);
    hide Ticked;
    OneMore(plan, events, s, Prepare(Stepping), a, whole);
    longer := events + [Prepare(Stepping)];
    var b := QueueUp(plan, a, seen);
    OneMore(plan, longer, a, queue, b, whole);
    longer := longer + [queue];
    var d := OwnOne(plan, b, s.queued);
    OneMore(plan, longer, b, OwnArrives(b.queued - 1), d, whole);
    longer := longer + [OwnArrives(b.queued - 1)];
    t := HostOne(plan, d);
    OneMore(plan, longer, d, HostSteps, t, whole);
    longer := longer + [HostSteps];
    TickedAgain(c, t, seen, y);
    WentOn(plan, longer, t, seen, y, whole);
  }

  lemma HostOne(plan: Plan, s: Session<Trace>) returns (t: Session<Trace>)
    requires plan.c.base <= s.hostNext < s.queued && plan.c.delay < s.queued && Supplied(plan.c, s)
    requires s.hostNext + plan.c.delay < s.queued + plan.c.window
    ensures Goes(plan.c, plan.Decides(), s, HostSteps, t) && t == s.(hostNext := s.hostNext + 1)
    ensures Supplied(plan.c, t)
  {
    t := s.(hostNext := s.hostNext + 1);
    assert s.queued - 1 in s.held;
  }

  lemma TickedAgain(c: Config<Trace>, s: Session<Trace>, seen: nat, y: nat)
    requires AtRest(c, s.peer) && Blind(c, s.peer) && c.base <= seen <= s.hostNext == s.peer.next + Lead(c) + 1
    requires s.queued == s.peer.next + c.delay + 1 && Supplied(c, s)
    requires OwnReady(c, s.peer.table, s.peer.next, s.queued) && LastHeard(c, s.peer.table, seen)
    requires ConfirmedFrom(c, s.peer.table, Max(y, c.From(s.peer.next, c.History())), seen)
    ensures Ticked(c, s, seen, y)
  {
  }

  // A tick in which the latest burst or packet arrives, if peer and host do not wait for each other.
  lemma HeardTick(plan: Plan, events: seq<Event>, s: Session<Trace>, e: Event, seen: nat, y: nat, whole: bool)
    returns (longer: seq<Event>, t: Session<Trace>)
    requires Planned(plan) && Went(plan, events, s, seen, y, whole) && Misses(plan, e) && (whole ==> !e.PacketArrives?)
    requires e.last == s.hostNext - 1 && seen <= s.hostNext && (y >= e.last || seen == e.last) && !Deadlocked(plan.c)
    ensures Went(plan, longer, t, s.hostNext, y, whole)
    ensures t.peer.next == s.peer.next + 1 && t.hostNext == s.hostNext + 1
  {
    WentIs(plan, events, s, seen, y, whole);
    hide Ticked, Misses, Went, Going, Planned;
    var before, m := HearOne(plan, events, s, e, seen, y, whole);
    longer, t := TickOne(plan, before, m, s.hostNext, y, whole);
  }

  // The first tick of the session: the peer queues up to the delay, the host decides as far as it may.
  lemma Begin(plan: Plan, y: nat) returns (events: seq<Event>, s: Session<Trace>)
    requires Planned(plan) && Fed(plan.c, plan.held)
    ensures Went(plan, events, s, plan.c.base, y, true)
    ensures s.peer.next == plan.c.base && s.hostNext == plan.c.base + Lead(plan.c) + 1
  {
    var c := plan.c;
    hide AtRest, Blind, OwnReady, LastHeard, Goes, Going, Planned, Fed;
    events, s := Opening(plan);
    while s.hostNext <= c.base + Lead(c)
      invariant Going(plan, events, s, true) && AtRest(c, s.peer) && Blind(c, s.peer) && s.peer.next == c.base
      invariant c.base <= s.hostNext <= c.base + Lead(c) + 1 && s.queued == c.base + c.delay + 1 && Supplied(c, s)
      invariant OwnReady(c, s.peer.table, c.base, s.queued) && LastHeard(c, s.peer.table, c.base)
    {
      var t := HostOne(plan, s);
      OneMore(plan, events, s, HostSteps, t, true);
      events, s := events + [HostSteps], t;
    }
    TickedAgain(c, s, c.base, y);
    WentOn(plan, events, s, c.base, y, true);
  }

  // The peer queues, and the host hears of it.
  lemma Opening(plan: Plan) returns (events: seq<Event>, s: Session<Trace>)
    requires Planned(plan) && Fed(plan.c, plan.held)
    ensures var c := plan.c;
            && Going(plan, events, s, true) && AtRest(c, s.peer) && Blind(c, s.peer) && Supplied(c, s)
            && s.peer.next == s.hostNext == c.base && s.queued == c.base + c.delay + 1
            && OwnReady(c, s.peer.table, c.base, s.queued) && LastHeard(c, s.peer.table, c.base)
  {
    var c, queue := plan.c, Queue(_ => NEUTRAL, 0);
    var from := Started(c, plan.Decides(), plan.held);
    StartBlind(plan);
    assert Going(plan, [], from, true);
    hide AtRest, Blind, OwnReady, LastHeard, Goes, Going;
    var a := QueueUp(plan, from, c.base);
    OneMore(plan, [], from, queue, a, true);
    hide Planned;
    var known := FedUpTo(plan);
    s := OwnOne(plan, a, known);
    OneMore(plan, [] + [queue], a, OwnArrives(a.queued - 1), s, true);
    events := [] + [queue] + [OwnArrives(a.queued - 1)];
  }

  // The frames before the peer's first burst.
  lemma FedUpTo(plan: Plan) returns (known: nat)
    requires Fed(plan.c, plan.held)
    ensures plan.c.base + plan.c.delay <= known + INPUT_HISTORY_FRAMES
    ensures forall f :: plan.c.base <= f < known ==> f in plan.held
  {
    known := Low(plan.c.base + plan.c.delay, INPUT_HISTORY_FRAMES);
    forall f | plan.c.base <= f < known ensures f in plan.held { assert !Skipped(plan.c, plan.held, f); }
  }

  lemma StartBlind(plan: Plan)
    requires Planned(plan)
    ensures var s := Started(plan.c, plan.Decides(), plan.held);
            && AtRest(plan.c, s.peer) && Blind(plan.c, s.peer) && LastHeard(plan.c, s.peer.table, plan.c.base)
            && OwnReady(plan.c, s.peer.table, plan.c.base, plan.c.base)
  {
    StartOrderly(plan.c, plan.Decides(), plan.held);
    TruthIsIdle(plan, plan.c.base);
    hide AtRest;
  }

  // What arrives for a frame: its burst, or the second packet of that.
  function Arrival(last: nat, torn: bool): Event {
    if torn then PacketArrives(last, 1) else BurstArrives(last)
  }

  // Nothing that arrives for frame y or later brings the lost frame.
  ghost predicate Behind(plan: Plan, y: nat, torn: bool) {
    forall last: nat :: last >= y ==> Misses(plan, Arrival(last, torn))
  }

  lemma BurstsBehind(plan: Plan, y: nat)
    requires plan.x < First(plan.c, y)
    ensures Behind(plan, y, false)
  {
    forall last: nat | last >= y ensures Misses(plan, Arrival(last, false)) {
      assert First(plan.c, y) <= First(plan.c, last);
      BurstMisses(plan, last);
    }
    hide Misses;
  }

  // From now on every frame is heard in its own tick, until everything unheard has left the window.
  lemma GoOn(plan: Plan, before: seq<Event>, from: Session<Trace>, heard: nat, y: nat, torn: bool)
    returns (events: seq<Event>, s: Session<Trace>, seen: nat)
    requires Planned(plan) && !Deadlocked(plan.c) && Went(plan, before, from, heard, y, !torn)
    requires y == from.hostNext - 1 && heard <= y && Behind(plan, y, torn)
    ensures Went(plan, events, s, seen, y, !torn)
    ensures s.peer.next == y + plan.c.History() && s.peer.next <= seen
  {
    hide Went, Misses, Arrival, Planned, Deadlocked, Ticked, Going, Behind;
    WentIs(plan, before, from, heard, y, !torn);
    events, s, seen := before, from, heard;
    var end := y + plan.c.History();
    while s.peer.next < end
      invariant Went(plan, events, s, seen, y, !torn)
      invariant s.hostNext > y && s.peer.next <= end && s.hostNext == s.peer.next + Lead(plan.c) + 1
      invariant seen == s.hostNext - 1 || (y == s.hostNext - 1 && s.peer.next <= y && seen <= y)
      decreases end - s.peer.next
    {
      events, s := NextHeard(plan, events, s, seen, y, torn);
      seen := s.hostNext - 1;
    }
  }

  lemma NextHeard(plan: Plan, events: seq<Event>, s: Session<Trace>, seen: nat, y: nat, torn: bool)
    returns (longer: seq<Event>, t: Session<Trace>)
    requires Planned(plan) && !Deadlocked(plan.c) && Went(plan, events, s, seen, y, !torn) && Behind(plan, y, torn)
    requires s.hostNext > y && seen < s.hostNext && (seen == s.hostNext - 1 || y == s.hostNext - 1)
    ensures Went(plan, longer, t, s.hostNext, y, !torn)
    ensures t.peer.next == s.peer.next + 1 && t.hostNext == s.hostNext + 1
  {
    hide Went, Misses, Arrival, Planned, Deadlocked, Behind;
    var last := s.hostNext - 1;
    ArrivalIs(plan, y, last, torn);
    longer, t := HeardTick(plan, events, s, Arrival(last, torn), seen, y, !torn);
  }

  lemma ArrivalIs(plan: Plan, y: nat, last: nat, torn: bool)
    requires Behind(plan, y, torn) && last >= y
    ensures Misses(plan, Arrival(last, torn))
    ensures Arrives(Arrival(last, torn)) && Arrival(last, torn).last == last
    ensures Arrival(last, torn).PacketArrives? <==> torn
  {
  }

  // Ticks in which nothing is heard.
  lemma GoSilent(plan: Plan, before: seq<Event>, from: Session<Trace>, seen: nat, y: nat, ticks: nat)
    returns (events: seq<Event>, s: Session<Trace>)
    requires Planned(plan) && Went(plan, before, from, seen, y, true) && plan.c.base < seen && plan.c.delay < seen
    requires from.peer.next + ticks + plan.c.delay <= seen + plan.c.window
    ensures Went(plan, events, s, seen, y, true)
    ensures s.peer.next == from.peer.next + ticks && s.hostNext == from.hostNext + ticks
  {
    events, s := before, from;
    for k := 0 to ticks
      invariant Went(plan, events, s, seen, y, true)
      invariant s.peer.next == from.peer.next + k && s.hostNext == from.hostNext + k
    {
      hide Went, Planned;
      events, s := TickOne(plan, events, s, seen, y, true);
    }
  }

  // At rest, all the window confirmed, nothing requested, and still not the host's state.
  ghost predicate RestsWrong(c: Config<Trace>, host: Host, s: Session<Trace>) {
    && AtRest(c, s.peer) && s.peer.requested.None? && WindowConfirmed(c, s.peer)
    && s.peer.state != Fold(c, TruthUpTo(c, host.truth, s.peer.next))
  }

  lemma EndsWrong(plan: Plan, events: seq<Event>, s: Session<Trace>, seen: nat, y: nat, whole: bool)
    requires Planned(plan) && Went(plan, events, s, seen, y, whole)
    requires s.peer.next == y + plan.c.History() && s.peer.next <= seen && plan.x <= y
    ensures Reached(plan.c, plan.Decides(), plan.held, events, s) && (whole ==> WholeBursts(events))
    ensures RestsWrong(plan.c, plan.Decides(), s)
  {
    var c := plan.c;
    hide Runs;
    assert WindowConfirmed(c, s.peer);
    StateWrong(plan, s.peer);
    hide AtRest;
  }

  lemma StateWrong(plan: Plan, p: Peer<Trace>)
    requires Planned(plan) && AtRest(plan.c, p) && Blind(plan.c, p) && plan.x < p.next
    ensures p.state != Fold(plan.c, TruthUpTo(plan.c, plan.Decides().truth, p.next))
  {
    var c, truth := plan.c, plan.Decides().truth;
    assert p.state == Fold(c, p.used) && p.used == Idle(c, p.next);
    TruthIsBusy(plan, p.next);
    hide *;
    FoldIsTrace(c, p.used);
    FoldIsTrace(c, TruthUpTo(c, truth, p.next));
  }

  lemma TruthIsBusy(plan: Plan, n: nat)
    requires Planned(plan) && plan.x < n
    ensures Traced(plan.c) && TruthUpTo(plan.c, plan.Decides().truth, n) != Idle(plan.c, n)
  {
    var c, x := plan.c, plan.x;
    var i :| 0 <= i < |c.players| && c.players[i] == plan.who;
    assert Idle(c, n)[x][i] == NEUTRAL && TruthUpTo(c, plan.Decides().truth, n)[x][i] == Other(NEUTRAL);
  }

  // The window is short, the session never starts, or the host goes without.
  ghost predicate Safe<S>(c: Config<S>, held: set<nat>) { Short(c) || Deadlocked(c) || !Fed(c, held) }

  ghost predicate Remote<S>(c: Config<S>, who: nat) { who in c.players && who !in c.locals }

  /** Lost bursts: for every other session, a run of whole bursts that ends wrong for good. */
  lemma LostBursts(c: Config<Trace>, held: set<nat>, who: nat)
    returns (host: Host, events: seq<Event>, s: Session<Trace>)
    requires Traced(c) && HeldAtStart(c, held) && Remote(c, who) && !Safe(c, held)
    ensures Reached(c, host, held, events, s) && WholeBursts(events) && RestsWrong(c, host, s)
  {
    hide Traced, Remote, RestsWrong, Reached, Short, Deadlocked, Fed;
    if Lead(c) < BurstLength(c) {
      host, events, s := LostLater(c, held, who);
    } else {
      host, events, s := LostFirst(c, held, who);
    }
  }

  lemma MakesPlan(plan: Plan)
    requires Traced(plan.c) && HeldAtStart(plan.c, plan.held) && Remote(plan.c, plan.who) && plan.c.base <= plan.x
    ensures Planned(plan)
  {
  }

  // One burst is heard, then none until the next frame has left them.
  lemma LostLater(c: Config<Trace>, held: set<nat>, who: nat)
    returns (host: Host, events: seq<Event>, s: Session<Trace>)
    requires Traced(c) && HeldAtStart(c, held) && Remote(c, who) && Fed(c, held)
    requires !Short(c) && !Deadlocked(c) && Lead(c) < BurstLength(c)
    ensures Reached(c, host, held, events, s) && WholeBursts(events) && RestsWrong(c, host, s)
  {
    hide *;
    var first, ticks := c.base + Lead(c), BurstLength(c) + 1;
    var plan, y := Plan(c, held, who, first + 1), first + ticks;
    var seen;
    host := plan.Decides();
    LaterFits(c, first, y);
    MakesPlan(plan);
    BurstsBehind(plan, y);
    events, s := HearFirst(plan, first, y);
    events, s := GoSilent(plan, events, s, first + 1, y, ticks);
    events, s, seen := GoOn(plan, events, s, first + 1, y, false);
    EndsWrong(plan, events, s, seen, y, true);
  }

  lemma LaterFits(c: Config<Trace>, first: nat, y: nat)
    requires !Short(c) && !Deadlocked(c) && Lead(c) < BurstLength(c)
    requires first == c.base + Lead(c) && y == first + BurstLength(c) + 1
    ensures first + 1 < First(c, y) && c.delay < first + 1
    ensures c.base + BurstLength(c) + 1 + c.delay <= first + 1 + c.window
  {
  }

  // Nothing is heard until the first frame has left the bursts.
  lemma LostFirst(c: Config<Trace>, held: set<nat>, who: nat)
    returns (host: Host, events: seq<Event>, s: Session<Trace>)
    requires Traced(c) && HeldAtStart(c, held) && Remote(c, who) && Fed(c, held)
    requires !Deadlocked(c) && Lead(c) >= BurstLength(c)
    ensures Reached(c, host, held, events, s) && WholeBursts(events) && RestsWrong(c, host, s)
  {
    hide *;
    var plan, y := Plan(c, held, who, c.base), c.base + Lead(c);
    var seen;
    host := plan.Decides();
    assert c.base < First(c, y) by { FirstFits(c, y); }
    MakesPlan(plan);
    BurstsBehind(plan, y);
    events, s := Begin(plan, y);
    events, s, seen := GoOn(plan, events, s, c.base, y, false);
    EndsWrong(plan, events, s, seen, y, true);
  }

  lemma FirstFits(c: Config<Trace>, y: nat)
    requires Lead(c) >= BurstLength(c) && y == c.base + Lead(c)
    ensures c.base < First(c, y)
  {
  }

  // The first burst is heard, and not the frame after it.
  lemma HearFirst(plan: Plan, first: nat, y: nat) returns (events: seq<Event>, s: Session<Trace>)
    requires Planned(plan) && Fed(plan.c, plan.held)
    requires first == plan.c.base + Lead(plan.c) && plan.x == first + 1 && first <= y
    ensures Went(plan, events, s, first + 1, y, true) && s.peer.next == plan.c.base && s.hostNext == first + 1
  {
    hide Went, Planned, Misses;
    events, s := Begin(plan, y);
    BurstMisses(plan, first);
    events, s := HearOne(plan, events, s, BurstArrives(first), plan.c.base, y, true);
  }

  /**
   The exact condition, for any players, delay, window and first frame, and whatever the host holds of
   the peer when the session begins. However bursts are lost, delayed or doubled in both directions,
   the peer at rest with its window confirmed is where the host was, exactly if the window is at most
   12 frames, the session never starts, or the host goes without the inputs of some frame.
   */
  lemma SafeExactly(c: Config<Trace>, held: set<nat>)
    requires Traced(c) && HeldAtStart(c, held)
    ensures Safe(c, held) <==>
            forall host: Host, events: seq<Event>, s: Session<Trace> ::
              Reached(c, host, held, events, s) && WholeBursts(events) ==> RightAtRest(c, host, s)
  {
    if Safe(c, held) {
      forall host: Host, events: seq<Event>, s: Session<Trace> |
        Reached(c, host, held, events, s) && WholeBursts(events)
        ensures RightAtRest(c, host, s)
      {
        SafeAtRest(c, host, held, events, s);
      }
    } else {
      var i :| 0 <= i < |c.players| && c.players[i] !in c.locals;
      var host, events, s := LostBursts(c, held, c.players[i]);
    }
  }

  /** The direction that holds for every tick, and without a resync. */
  lemma SafeAtRest<S(!new)>(c: Config<S>, host: Host, held: set<nat>, events: seq<Event>, s: Session<S>)
    requires Safe(c, held) && Peerlike(c) && WholeBursts(events) && Reached(c, host, held, events, s)
    ensures RightAtRest(c, host, s) && Prepare(Resync) !in events
  {
    if Short(c) {
      SafeRun(c, host, held, events, s);
    } else if !Deadlocked(c) {
      var g: nat :| Skipped(c, held, g);
      UnfedRun(c, host, held, events, s, g);
    } else {
      NeverStarts(c, host, held, events, s);
      hide Reached, Peerlike, TruthUpTo;
      assert forall e: Event :: e in events && e.Prepare? ==> e.result == Waiting;
      assert Prepare(Resync).Prepare?;
    }
  }

  /** A host that holds nothing of the peer yet gets all it needs exactly if the delay is at most 12 frames. */
  lemma FreshFed<S>(c: Config<S>)
    ensures HeldAtStart(c, {}) && (Fed(c, {}) <==> c.delay <= INPUT_HISTORY_FRAMES)
    ensures FedToStart(c, {}) <==> c.delay <= INPUT_HISTORY_FRAMES || (c.delay < c.base && c.delay < c.window)
  {
    if c.delay > INPUT_HISTORY_FRAMES { assert Skipped(c, {}, c.base); }
  }

  // ----- the first step -----

  // The host decides as far as the peer needs it to, and the peer hears the last of that.
  lemma HostReaches(plan: Plan, from: Session<Trace>, events: seq<Event>)
    returns (longer: seq<Event>, s: Session<Trace>)
    requires !Deadlocked(plan.c) && Going(plan, events, from, true) && from.hostNext == plan.c.base
    requires forall f :: plan.c.base <= f <= FirstNeeded(plan.c) ==> f in from.held
    requires plan.c.base + plan.c.delay in from.held
    ensures Going(plan, longer, s, true) && s == from.(hostNext := Max(plan.c.base, FirstNeeded(plan.c) + 1))
  {
    longer, s := events, from;
    while s.hostNext <= FirstNeeded(plan.c)
      invariant Going(plan, longer, s, true) && s == from.(hostNext := s.hostNext)
      invariant plan.c.base <= s.hostNext <= Max(plan.c.base, FirstNeeded(plan.c) + 1)
    {
      hide Going;
      var t := s.(hostNext := s.hostNext + 1);
      assert HostMay(plan.c, s);
      OneMore(plan, longer, s, HostSteps, t, true);
      longer, s := longer + [HostSteps], t;
    }
  }

  lemma HearsEnough(plan: Plan, s: Session<Trace>, last: nat) returns (t: Session<Trace>)
    requires Planned(plan) && AtRest(plan.c, s.peer) && Blind(plan.c, s.peer) && last < s.hostNext && last < plan.x
    requires s.peer.next == plan.c.base <= s.queued && OwnReady(plan.c, s.peer.table, s.peer.next, s.queued)
    requires NothingFrom(plan.c, s.peer.table)
    requires FirstNeeded(plan.c) <= last
    ensures Goes(plan.c, plan.Decides(), s, BurstArrives(last), t) && t == s.(peer := t.peer)
    ensures t.peer.next == s.peer.next && AtRest(plan.c, t.peer) && Blind(plan.c, t.peer)
    ensures OwnReady(plan.c, t.peer.table, t.peer.next, t.queued) && CanStep(plan.c, t.peer.table, t.peer.next)
  {
    var c, p, records := plan.c, s.peer, Burst(plan.c, plan.Decides(), last);
    t := s.(peer := CanonicalStored(p, records));
    assert Goes(c, plan.Decides(), s, BurstArrives(last), t);
    hide *;
    PlanPlayers(plan);
    BurstMisses(plan, last);
    MissedIsNeutral(plan, BurstArrives(last));
    BurstIs(c, plan.Decides(), last);
    NeutralTaken(c, p, records);
    RestKeyed(c, p);
    CanonicalTaken(c, p, records, plan.Decides().truth);
    CanonicalRests(c, p, records);
    StoresOnly(p, records);
    HeardReady(c, p, records, t.peer, last, s.queued);
  }

  lemma BurstIs(c: Config<Trace>, host: Host, last: nat)
    requires INVALID_PLAYER_ID !in c.players
    ensures Heard(c, host, BurstArrives(last)) == Burst(c, host, last)
    ensures AllCanonical(c, Burst(c, host, last), host.truth)
    ensures forall k :: Names(Burst(c, host, last), k) ==> k.frame <= last
    ensures forall i :: 0 <= i < |c.players| ==> Names(Burst(c, host, last), Key(c.players[i], last))
  {
    HeardCanonical(c, host, BurstArrives(last));
    forall k ensures Names(Burst(c, host, last), k) <==> First(c, last) <= k.frame <= last && k.playerId in c.players {
      BurstCarries(c, host, last, k);
    }
    hide Burst, Names, AllCanonical;
  }

  // No remote player has a record.
  ghost predicate NothingFrom<S>(c: Config<S>, table: Table) {
    forall k :: k in table && k.playerId in c.players ==> k.playerId in c.locals
  }

  lemma HeardReady(c: Config<Trace>, p: Peer<Trace>, records: seq<Record>, q: Peer<Trace>, last: nat, queued: nat)
    requires Taken(p, records, q) && NothingFrom(c, p.table) && FirstNeeded(c) <= last && p.next == c.base
    requires forall k :: Names(records, k) ==> k.frame <= last
    requires forall i :: 0 <= i < |c.players| ==> Names(records, Key(c.players[i], last))
    requires OwnReady(c, p.table, p.next, queued)
    ensures OwnReady(c, q.table, q.next, queued) && CanStep(c, q.table, q.next)
  {
    hide Names;
    forall i | 0 <= i < |c.players| && c.players[i] !in c.locals ensures NearEnough(c, q.table, c.players[i], q.next) {
      assert IsLatest(q.table, c.players[i], last);
    }
  }

  /**
   A session takes its first step in some run exactly if host and peer do not wait for each other and
   the host gets all the inputs it needs for the last frame the peer must hear of.
   */
  lemma StartsExactly(c: Config<Trace>, held: set<nat>)
    requires Traced(c) && HeldAtStart(c, held)
    ensures !Deadlocked(c) && FedToStart(c, held) <==>
            exists host: Host, events: seq<Event>, s: Session<Trace> ::
              Reached(c, host, held, events, s) && s.peer.next > c.base
  {
    if Deadlocked(c) || !FedToStart(c, held) {
      forall host: Host, events: seq<Event>, s: Session<Trace> | Reached(c, host, held, events, s)
        ensures s.peer.next == c.base
      {
        NeverStarts(c, host, held, events, s);
      }
    } else {
      var host, events, s := FirstStep(c, held);
    }
  }

  lemma FirstStep(c: Config<Trace>, held: set<nat>) returns (host: Host, events: seq<Event>, s: Session<Trace>)
    requires Traced(c) && HeldAtStart(c, held) && !Deadlocked(c) && FedToStart(c, held)
    ensures Reached(c, host, held, events, s) && s.peer.next > c.base
  {
    var i :| 0 <= i < |c.players| && c.players[i] !in c.locals;
    var last := Max(c.base, FirstNeeded(c) + 1) - 1;
    var plan := Plan(c, held, c.players[i], last + 1);
    host := plan.Decides();
    assert Planned(plan);
    hide *;
    var b, d, e;
    events, b := Greets(plan);
    events, d := HostReaches(plan, b, events);
    e := HearsEnough(plan, d, last);
    OneMore(plan, events, d, BurstArrives(last), e, true);
    events := events + [BurstArrives(last)];
    s := StepsAfter(plan, e);
    OneMore(plan, events, e, Prepare(Stepping), s, true);
    events := events + [Prepare(Stepping)];
    GoingReaches(plan, events, s);
  }

  // The peer queues, and what it sends arrives.
  lemma Greets(plan: Plan) returns (events: seq<Event>, s: Session<Trace>)
    requires Planned(plan) && FedToStart(plan.c, plan.held) && !Deadlocked(plan.c)
    ensures var c := plan.c;
            && Going(plan, events, s, true) && AtRest(c, s.peer) && Blind(c, s.peer) && NothingFrom(c, s.peer.table)
            && s.peer.next == s.hostNext == c.base && s.queued == c.base + c.delay + 1
            && OwnReady(c, s.peer.table, s.peer.next, s.queued) && c.base + c.delay in s.held
            && forall f :: c.base <= f <= FirstNeeded(c) ==> f in s.held
  {
    var c, host, queue, last := plan.c, plan.Decides(), Queue(_ => NEUTRAL, 0), plan.c.base + plan.c.delay;
    var from := Started(c, host, plan.held);
    StartBlind(plan);
    assert Going(plan, [], from, true) && NothingFrom(c, from.peer.table);
    assert from.peer.next == from.queued == from.hostNext == c.base && from.held == plan.held;
    hide *;
    var a := QueueUp(plan, from, c.base);
    OneMore(plan, [], from, queue, a, true);
    QueuesOwn(c, host, from, queue, a);
    s := OwnBurstHeard(plan, a);
    OneMore(plan, [] + [queue], a, OwnArrives(last), s, true);
    events := [] + [queue] + [OwnArrives(last)];
  }

  lemma GoingReaches(plan: Plan, events: seq<Event>, s: Session<Trace>)
    requires Going(plan, events, s, true) && HeldAtStart(plan.c, plan.held)
    ensures Reached(plan.c, plan.Decides(), plan.held, events, s)
  {
    hide Runs;
  }

  lemma QueuesOwn(c: Config<Trace>, host: Host, s: Session<Trace>, e: Event, t: Session<Trace>)
    requires e.Queue? && Goes(c, host, s, e, t) && NothingFrom(c, s.peer.table)
    ensures NothingFrom(c, t.peer.table)
  {
    QueuedFramesAre(c, s.peer.table, s.queued, t.queued - s.queued, e.own, e.sequence);
    hide QueuedFrames;
  }

  lemma OwnBurstHeard(plan: Plan, s: Session<Trace>) returns (t: Session<Trace>)
    requires s.queued == plan.c.base + plan.c.delay + 1 && FedToStart(plan.c, s.held) && !Deadlocked(plan.c)
    ensures Goes(plan.c, plan.Decides(), s, OwnArrives(plan.c.base + plan.c.delay), t) && t == s.(held := t.held)
    ensures plan.c.base + plan.c.delay in t.held
    ensures forall f :: plan.c.base <= f <= FirstNeeded(plan.c) ==> f in t.held
  {
    t := s.(held := s.held + OwnBurst(plan.c, plan.c.base + plan.c.delay));
    forall f | plan.c.base <= f <= FirstNeeded(plan.c) ensures f in t.held {
      assert !Skipped(plan.c, s.held, f);
    }
  }

  lemma StepsAfter(plan: Plan, s: Session<Trace>) returns (t: Session<Trace>)
    requires Planned(plan) && AtRest(plan.c, s.peer) && Blind(plan.c, s.peer) && s.peer.next + plan.c.delay < s.queued
    requires OwnReady(plan.c, s.peer.table, s.peer.next, s.queued) && CanStep(plan.c, s.peer.table, s.peer.next)
    ensures Goes(plan.c, plan.Decides(), s, Prepare(Stepping), t) && t.peer.next == s.peer.next + 1
  {
    hide *;
    var r := s.peer.(table := Longer(plan.c, s.peer));
    t := s.(peer := NewFrame(plan.c, r));
    PlanPlayers(plan);
    BlindIs(plan.c, s.peer);
    LongerIs(plan.c, s.peer, s.queued);
    StepGoes(plan.c, plan.Decides(), s, t);
    NewFrameTable(plan.c, r);
  }

  // Such as one resumed at frame 1000 with window 20 and delay 30, both of which may be set, by a host
  // that holds the peer's inputs up to where its first burst begins.
  const RESUMED: Config<Trace> := Config(Append, [], [1, 2], {1}, 30, 20, 1000)

  const BEFORE: set<nat> := Frames(1000, 1018)

  /** A resumed session that starts although its delay is beyond its window, and loses a frame. */
  lemma ResumedLoses() returns (host: Host, events: seq<Event>, s: Session<Trace>)
    ensures RESUMED.window < RESUMED.delay
    ensures Reached(RESUMED, host, BEFORE, events, s) && WholeBursts(events) && RestsWrong(RESUMED, host, s)
  {
    assert RESUMED.players[0] in RESUMED.locals && RESUMED.players[1] !in RESUMED.locals;
    host, events, s := LostBursts(RESUMED, BEFORE, 2);
  }
}
