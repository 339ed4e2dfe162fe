/**
 What the host hears of a peer: bursts of its last 13 own inputs, any of which may be lost, come
 late or come twice. When the host can always go on, and when a lost burst leaves it without.
 */
module OwnBursts {
  import opened Options
  import opened InputFrames
  import opened InputBuffer
  import opened PeerRollback
  import opened HostStream
  import opened PeerSessions
  import opened LostFrames

  // ----- what the peer sends -----

  lemma StaysOwnReady<S>(c: Config<S>, host: Host, s: Session<S>, seen: nat, e: Event, t: Session<S>)
    requires Peerlike(c) && Orderly(c, s, seen) && OwnReady(c, s.peer.table, s.peer.next, s.queued)
    requires Goes(c, host, s, e, t) && e != Prepare(Resync)
    ensures OwnReady(c, t.peer.table, t.peer.next, t.queued)
  {
    var p := s.peer;
    assert AtRest(c, p) && INVALID_PLAYER_ID !in c.players;
    hide AtRest, QueuedFrames, PreparedTo, CanonicalStored, Heard, HostMay, HeardBelow, InStep, Peerlike, Orderly;
    if e.Queue? {
      QueuedFramesAre(c, p.table, s.queued, t.queued - s.queued, e.own, e.sequence);
    } else if e.Prepare? {
      PreparedKeeps(c, p, e.result, t.peer, host.truth);
      hide CanStep, Shared, Faithful, LeavesConfirmed, Trimmed;
    } else if Arrives(e) {
      RestKeyed(c, p);
      HeardCanonical(c, host, e);
      hide AllCanonical, Names;
      CanonicalTaken(c, p, Heard(c, host, e), host.truth);
    }
  }

  lemma {:induction false} RunOwnReady<S(!new)>(
    c: Config<S>, host: Host, held: set<nat>, events: seq<Event>, s: Session<S>) returns (seen: nat)
    requires Peerlike(c) && Reached(c, host, held, events, s) && Prepare(Resync) !in events
    ensures Orderly(c, s, seen) && OwnReady(c, s.peer.table, s.peer.next, s.queued)
    decreases |events|
  {
    if events == [] {
      StartOrderly(c, host, held);
      hide Orderly;
      return c.base;
    }
    assert HeldAtStart(c, held);
    var front, m, e := LastStep(c, host, Started(c, host, held), events, s);
    assert Reached(c, host, held, front, m);
    hide *;
    assert Prepare(Resync) !in front && e != Prepare(Resync);
    seen := RunOwnReady(c, host, held, front, m);
    StaysOwnReady(c, host, m, seen, e, s);
    EventOrderly(c, host, m, e, s, seen);
    OnwardOrderly(c, m, s, SeenAfter(seen, e));
    seen := SeenAfter(seen, e);
  }

  /** In every run, what the peer sends after queueing are its inputs for the frames of its burst. */
  lemma SendsOwnBurst<S(!new)>(c: Config<S>, host: Host, held: set<nat>, events: seq<Event>, s: Session<S>, k: Key)
    requires Peerlike(c) && Reached(c, host, held, events, s) && Prepare(Resync) !in events
    requires s.queued == s.peer.next + c.delay + 1
    requires k.frame >= c.base && k.playerId in c.players && k.playerId in c.locals
    ensures Names(OwnRecords(c, s.peer.table, s.queued), k) <==> k.frame in OwnBurst(c, s.queued - 1)
  {
    hide Reached, Peerlike;
    var seen := RunOwnReady(c, host, held, events, s);
    RestKeyed(c, s.peer);
    OwnRecordsCarry(c, s.peer.table, s.queued, k);
    hide Names, OwnRecords;
    if k.frame in OwnBurst(c, s.queued - 1) {
      var i :| 0 <= i < |c.players| && c.players[i] == k.playerId;
      OwnRecorded(c, s, seen, i, k.frame);
    }
  }

  lemma OwnRecorded<S>(c: Config<S>, s: Session<S>, seen: nat, i: nat, f: nat)
    requires Orderly(c, s, seen) && OwnReady(c, s.peer.table, s.peer.next, s.queued)
    requires i < |c.players| && c.players[i] in c.locals && s.queued == s.peer.next + c.delay + 1
    requires f in OwnBurst(c, s.queued - 1)
    ensures Key(c.players[i], f) in s.peer.table
  {
    if f < s.peer.next { assert AllPresent(c, s.peer.table, f); }
  }

  // ----- what the peer's players held -----

  function StepsIn(events: seq<Event>): nat
    decreases |events|
  {
    if events == [] then 0
    else StepsIn(events[..|events| - 1]) + if events[|events| - 1] == Prepare(Stepping) then 1 else 0
  }

  // Where the queue ends after some events.
  function QueuedAfter<S>(c: Config<S>, events: seq<Event>): nat
    decreases |events|
  {
    if events == [] then c.base
    else
      var front := events[..|events| - 1];
      if events[|events| - 1].Queue? then Max(QueuedAfter(c, front), c.base + StepsIn(front) + c.delay + 1)
      else QueuedAfter(c, front)
  }

  // The input a player held when the frame was queued.
  function InputQueued<S>(c: Config<S>, events: seq<Event>, k: Key): InputFrame
    decreases |events|
  {
    if events == [] then NEUTRAL
    else
      var front, e := events[..|events| - 1], events[|events| - 1];
      if e.Queue? && QueuedAfter(c, front) <= k.frame < QueuedAfter(c, events) then e.own(k.playerId)
      else InputQueued(c, front, k)
  }

  // Own records are decisions of the host, or what was queued.
  ghost predicate HoldsQueued<S>(c: Config<S>, host: Host, events: seq<Event>, table: Table) {
    && HonestHost(table, host.truth) && AllFirm(table)
    && forall k :: k in table && k.playerId in c.locals && k.frame >= c.base && !table[k].canonical ==>
         k.frame < QueuedAfter(c, events) && table[k].input == InputQueued(c, events, k)
  }

  lemma OneMoreEvent<S>(c: Config<S>, front: seq<Event>, e: Event, k: Key)
    ensures StepsIn(front + [e]) == StepsIn(front) + if e == Prepare(Stepping) then 1 else 0
    ensures QueuedAfter(c, front + [e]) ==
            if e.Queue? then Max(QueuedAfter(c, front), c.base + StepsIn(front) + c.delay + 1)
            else QueuedAfter(c, front)
    ensures InputQueued(c, front + [e], k) ==
            if e.Queue? && QueuedAfter(c, front) <= k.frame < QueuedAfter(c, front + [e])
            then e.own(k.playerId) else InputQueued(c, front, k)
  {
    var events := front + [e];
    assert events[..|events| - 1] == front;
  }

  lemma QueueHolds<S>(
    c: Config<S>, host: Host, front: seq<Event>, e: Event, table: Table, from: nat, n: nat)
    requires e.Queue? && HoldsQueued(c, host, front, table) && from == QueuedAfter(c, front)
    requires from + n == QueuedAfter(c, front + [e])
    ensures HoldsQueued(c, host, front + [e], QueuedFrames(c, table, from, n, e.own, e.sequence))
  {
    var after := QueuedFrames(c, table, from, n, e.own, e.sequence);
    QueuedFramesAre(c, table, from, n, e.own, e.sequence);
    QueuedFramesHold(c, table, from, n, e.own, e.sequence);
    hide QueuedFrames, QueuedAfter, InputQueued;
    forall k | k in after && k.playerId in c.locals && k.frame >= c.base && !after[k].canonical
      ensures k.frame < QueuedAfter(c, front + [e]) && after[k].input == InputQueued(c, front + [e], k)
    {
      OneMoreEvent(c, front, e, k);
    }
  }

  // Events that queue nothing.
  lemma StaysHeld<S>(c: Config<S>, host: Host, front: seq<Event>, e: Event, table: Table, after: Table)
    requires HoldsQueued(c, host, front, table) && !e.Queue?
    requires HonestHost(after, host.truth) && AllFirm(after)
    requires forall k :: k in after && k.playerId in c.locals && !after[k].canonical ==>
               k in table && after[k] == table[k]
    ensures HoldsQueued(c, host, front + [e], after)
  {
    hide QueuedAfter, InputQueued, HonestHost, AllFirm;
    forall k | k in after && k.playerId in c.locals && k.frame >= c.base && !after[k].canonical
      ensures k.frame < QueuedAfter(c, front + [e]) && after[k].input == InputQueued(c, front + [e], k)
    {
      OneMoreEvent(c, front, e, k);
    }
  }

  lemma EventHolds<S>(
    c: Config<S>, host: Host, front: seq<Event>, s: Session<S>, seen: nat, e: Event, t: Session<S>)
    requires Peerlike(c) && Orderly(c, s, seen) && Goes(c, host, s, e, t) && e != Prepare(Resync)
    requires HoldsQueued(c, host, front, s.peer.table)
    requires s.queued == QueuedAfter(c, front) && s.peer.next == c.base + StepsIn(front)
    ensures HoldsQueued(c, host, front + [e], t.peer.table)
    ensures t.queued == QueuedAfter(c, front + [e]) && t.peer.next == c.base + StepsIn(front + [e])
  {
    var p, q := s.peer, t.peer;
    OneMoreEvent(c, front, e, Key(0, 0));
    assert AtRest(c, p) && INVALID_PLAYER_ID !in c.players;
    hide AtRest, QueuedFrames, PreparedTo, CanonicalStored, Heard, HostMay, HeardBelow, InStep, Peerlike, Orderly,
         QueuedAfter, StepsIn, HoldsQueued;
    if e.Queue? {
      QueueHolds(c, host, front, e, p.table, s.queued, t.queued - s.queued);
    } else if e.Prepare? {
      PreparedKeeps(c, p, e.result, q, host.truth);
      PreparedHolds(c, host, front, e, p, q);
    } else if Arrives(e) {
      RestKeyed(c, p);
      HeardCanonical(c, host, e);
      CanonicalTaken(c, p, Heard(c, host, e), host.truth);
      StoresOnly(p, Heard(c, host, e));
      HeardHolds(c, host, front, e, p, q);
    } else {
      SameHolds(c, host, front, e, p.table);
    }
  }

  lemma SameHolds<S>(c: Config<S>, host: Host, front: seq<Event>, e: Event, table: Table)
    requires HoldsQueued(c, host, front, table) && !e.Queue?
    ensures HoldsQueued(c, host, front + [e], table)
  {
    hide QueuedAfter, InputQueued;
    StaysHeld(c, host, front, e, table, table);
  }

  lemma PreparedHolds<S>(c: Config<S>, host: Host, front: seq<Event>, e: Event, p: Peer<S>, q: Peer<S>)
    requires HoldsQueued(c, host, front, p.table) && e.Prepare? && PreparedWell(c, p, e.result, q, host.truth)
    ensures HoldsQueued(c, host, front + [e], q.table)
    ensures q.next == p.next + if e == Prepare(Stepping) then 1 else 0
  {
    hide QueuedAfter, InputQueued, AtRest, Shared, CanStep, Faithful, LeavesConfirmed, Trimmed;
    StaysHeld(c, host, front, e, p.table, q.table);
  }

  lemma HeardHolds<S>(c: Config<S>, host: Host, front: seq<Event>, e: Event, p: Peer<S>, q: Peer<S>)
    requires HoldsQueued(c, host, front, p.table) && Arrives(e) && Taken(p, Heard(c, host, e), q)
    requires q == CanonicalStored(p, Heard(c, host, e)) && AllCanonical(c, Heard(c, host, e), host.truth)
    ensures HoldsQueued(c, host, front + [e], q.table)
  {
    HonestTaken(c, p, Heard(c, host, e), host.truth);
    hide QueuedAfter, InputQueued, CanonicalStored, Heard, AllCanonical, Names, HonestHost;
    StaysHeld(c, host, front, e, p.table, q.table);
  }

  lemma {:induction false} HonestTaken<S>(c: Config<S>, p: Peer<S>, records: seq<Record>, truth: Truth)
    requires AllCanonical(c, records, truth) && HonestHost(p.table, truth)
    ensures HonestHost(CanonicalStored(p, records).table, truth)
  {
    if records != [] {
      var n := |records| - 1;
      assert AllCanonical(c, records[..n], truth);
      HonestTaken(c, p, records[..n], truth);
      assert records[n].input == truth(records[n].playerId, records[n].frame);
      StoreHonestly(CanonicalStored(p, records[..n]).table, records[n], truth);
      hide HonestHost, AllCanonical;
    }
  }

  lemma {:induction false} RunHolds<S(!new)>(
    c: Config<S>, host: Host, held: set<nat>, events: seq<Event>, s: Session<S>) returns (seen: nat)
    requires Peerlike(c) && Reached(c, host, held, events, s) && Prepare(Resync) !in events
    ensures Orderly(c, s, seen) && HoldsQueued(c, host, events, s.peer.table)
    ensures s.queued == QueuedAfter(c, events) && s.peer.next == c.base + StepsIn(events)
    decreases |events|
  {
    if events == [] {
      StartOrderly(c, host, held);
      hide Orderly;
      return c.base;
    }
    assert HeldAtStart(c, held);
    var front, m, e := LastStep(c, host, Started(c, host, held), events, s);
    assert Reached(c, host, held, front, m);
    hide *;
    assert Prepare(Resync) !in front && e != Prepare(Resync);
    seen := RunHolds(c, host, held, front, m);
    EventHolds(c, host, front, m, seen, e, s);
    EventOrderly(c, host, m, e, s, seen);
    OnwardOrderly(c, m, s, SeenAfter(seen, e));
    seen := SeenAfter(seen, e);
  }

  /** And they carry what the players held when the frame was queued, unless the host has decided it. */
  lemma SendsInputs<S(!new)>(
    c: Config<S>, host: Host, held: set<nat>, events: seq<Event>, s: Session<S>, i: nat)
    requires Peerlike(c) && Reached(c, host, held, events, s) && Prepare(Resync) !in events
    requires i < |OwnRecords(c, s.peer.table, s.queued)| && OwnRecords(c, s.peer.table, s.queued)[i].frame >= c.base
    ensures var r := OwnRecords(c, s.peer.table, s.queued)[i];
            r.input == if r.canonical then host.truth(r.playerId, r.frame) else InputQueued(c, events, r.KeyOf())
  {
    hide Reached, Peerlike;
    var seen := RunHolds(c, host, held, events, s);
    RestKeyed(c, s.peer);
    OwnRecordsFrom(c, s.peer.table, s.queued);
    var r := OwnRecords(c, s.peer.table, s.queued)[i];
    OwnRecordsCarry(c, s.peer.table, s.queued, r.KeyOf());
    hide OwnRecords, Orderly, InputQueued, QueuedAfter;
  }

  // ----- frames that are lost -----

  // A frame the host still needs, that no burst sent from now on carries.
  ghost predicate CutOff<S>(c: Config<S>, s: Session<S>, f: nat) {
    s.hostNext <= f && f + INPUT_HISTORY_FRAMES + 1 < s.queued && f !in s.held
  }

  /** Unless a burst that was sent before comes late, the host then never decides that frame. */
  lemma {:induction false} CutOffForGood<S(!new)>(
    c: Config<S>, host: Host, from: Session<S>, events: seq<Event>, s: Session<S>, f: nat)
    requires CutOff(c, from, f) && Runs(c, host, from, events, s)
    requires forall e :: e in events && e.OwnArrives? ==> from.queued <= e.last + 1
    ensures s.hostNext <= f && f !in s.held
    decreases |events|
  {
    if events != [] {
      hide Goes, Runs;
      var front, m, e := LastStep(c, host, from, events, s);
      CutOffForGood(c, host, from, front, m, f);
      StaysCutOff(c, host, m, e, s, f);
    }
  }

  lemma StaysCutOff<S>(c: Config<S>, host: Host, s: Session<S>, e: Event, t: Session<S>, f: nat)
    requires s.hostNext <= f && f !in s.held && Goes(c, host, s, e, t)
    requires e.OwnArrives? ==> f + INPUT_HISTORY_FRAMES < e.last
    ensures t.hostNext <= f && f !in t.held
  {
    hide QueuedFrames, PreparedTo, CanonicalStored, Heard;
  }

  // ----- hosts that are never cut off -----

  // From the session's first frame on, the host holds all frames before any that it holds.
  ghost predicate Solid<S>(c: Config<S>, held: set<nat>) {
    forall f: nat, g: nat :: c.base <= f < g && g in held ==> f in held
  }

  ghost predicate Nourished<S>(c: Config<S>, s: Session<S>) {
    && Solid(c, s.held) && Fed(c, s.held)
    && (forall f :: c.base <= f && f + INPUT_HISTORY_FRAMES + 1 < s.queued ==> f in s.held)
    && (forall f :: c.base <= f < s.hostNext ==> f in s.held)
    && (s.hostNext > c.base ==> exists f :: f in s.held && s.hostNext + c.delay <= f + c.window + 1)
  }

  lemma QueueNourished<S>(c: Config<S>, s: Session<S>, seen: nat, t: Session<S>)
    requires Slack(c) <= INPUT_HISTORY_FRAMES && InStep(c, s, seen) && Nourished(c, s)
    requires t.held == s.held && t.hostNext == s.hostNext && t.queued == QueueEnd(c, s)
    ensures Nourished(c, t)
  {
    forall f | c.base <= f && f + INPUT_HISTORY_FRAMES + 1 < t.queued ensures f in s.held {
      assert !Skipped(c, s.held, f);
      if f !in s.held {
        assert false;
      }
    }
    hide Skipped;
  }

  lemma ArrivalNourished<S>(c: Config<S>, host: Host, s: Session<S>, e: Event, t: Session<S>)
    requires Nourished(c, s) && e.OwnArrives? && Goes(c, host, s, e, t)
    ensures Nourished(c, t)
  {
    forall f: nat ensures !Skipped(c, t.held, f) { assert !Skipped(c, s.held, f); }
    hide Skipped;
  }

  lemma StaysNourished<S>(c: Config<S>, host: Host, s: Session<S>, seen: nat, e: Event, t: Session<S>)
    requires Slack(c) <= INPUT_HISTORY_FRAMES && InStep(c, s, seen) && Nourished(c, s) && Goes(c, host, s, e, t)
    ensures Nourished(c, t)
  {
    hide QueuedFrames, PreparedTo, CanonicalStored, Heard, InStep, Solid, Fed;
    if e.Queue? {
      QueueNourished(c, s, seen, t);
    } else if e.OwnArrives? {
      ArrivalNourished(c, host, s, e, t);
    }
  }

  lemma {:induction false} RunNourished<S(!new)>(
    c: Config<S>, host: Host, held: set<nat>, events: seq<Event>, s: Session<S>) returns (seen: nat)
    requires Slack(c) <= INPUT_HISTORY_FRAMES && Fed(c, held) && Solid(c, held) && HeldAtStart(c, held) && Peerlike(c)
    requires Runs(c, host, Started(c, host, held), events, s) && Prepare(Resync) !in events
    ensures Orderly(c, s, seen) && Nourished(c, s)
    decreases |events|
  {
    if events == [] {
      StartOrderly(c, host, held);
      hide AtRest, Fed, Solid;
      return c.base;
    }
    var front, m, e := LastStep(c, host, Started(c, host, held), events, s);
    hide *;
    assert Prepare(Resync) !in front && e != Prepare(Resync);
    seen := RunNourished(c, host, held, front, m);
    OrderlyIsInStep(c, m, seen);
    StaysNourished(c, host, m, seen, e, s);
    EventOrderly(c, host, m, e, s, seen);
    OnwardOrderly(c, m, s, SeenAfter(seen, e));
    seen := SeenAfter(seen, e);
  }

  lemma OrderlyIsInStep<S>(c: Config<S>, s: Session<S>, seen: nat)
    requires Orderly(c, s, seen)
    ensures InStep(c, s, seen)
  {
    hide AtRest, HeardBelow, InStep;
  }

  /** Then the latest burst brings the host everything the peer has queued, whatever was lost before. */
  lemma NeverCutOff<S(!new)>(c: Config<S>, host: Host, held: set<nat>, events: seq<Event>, s: Session<S>)
    requires Slack(c) <= INPUT_HISTORY_FRAMES && Fed(c, held) && Solid(c, held) && Peerlike(c)
    requires Reached(c, host, held, events, s) && Prepare(Resync) !in events
    ensures forall f: nat :: !CutOff(c, s, f)
    ensures forall f :: c.base <= f < s.queued && f !in s.held ==> f in OwnBurst(c, s.queued - 1)
  {
    hide Runs, Fed, Solid, HeldAtStart;
    var seen := RunNourished(c, host, held, events, s);
    assert s.hostNext >= c.base by { OrderlyIsInStep(c, s, seen); }
    hide *;
    NourishedHolds(c, s);
    NotCutOff(c, s);
  }

  lemma NotCutOff<S>(c: Config<S>, s: Session<S>)
    requires Nourished(c, s) && s.hostNext >= c.base
    ensures forall f: nat :: !CutOff(c, s, f)
  {
    hide Solid, Fed;
  }

  // ----- and hosts that are -----

  lemma HeldQueued<S>(c: Config<S>, host: Host, s: Session<S>, e: Event, t: Session<S>)
    requires AllBelow(s.held, s.queued) && Goes(c, host, s, e, t)
    ensures AllBelow(t.held, t.queued)
  {
    hide QueuedFrames, PreparedTo, CanonicalStored, Heard, HostMay;
  }

  lemma {:induction false} RunHeldQueued<S(!new)>(
    c: Config<S>, host: Host, from: Session<S>, events: seq<Event>, s: Session<S>)
    requires AllBelow(from.held, from.queued) && Runs(c, host, from, events, s)
    ensures AllBelow(s.held, s.queued)
    decreases |events|
  {
    if events != [] {
      hide Goes, Runs, AllBelow;
      var front, m, e := LastStep(c, host, from, events, s);
      RunHeldQueued(c, host, from, front, m);
      HeldQueued(c, host, m, e, s);
    }
  }

  // The peer goes on as far as it may on what it heard, and none of its bursts arrives.
  lemma StepsAlone(plan: Plan, before: seq<Event>, from: Session<Trace>, seen: nat, ticks: nat)
    returns (events: seq<Event>, s: Session<Trace>)
    requires Planned(plan) && Going(plan, before, from, true) && PeerReady(plan.c, from, seen, seen)
    requires plan.c.base < seen && plan.c.delay < seen && seen <= from.queued == from.peer.next + plan.c.delay + 1
    requires from.peer.next + ticks + plan.c.delay <= seen + plan.c.window
    ensures Going(plan, events, s, true) && s.held == from.held && s.hostNext == from.hostNext
    ensures s.queued == from.queued + ticks
  {
    events, s := before, from;
    hide *;
    for k := 0 to ticks
      invariant Going(plan, events, s, true) && PeerReady(plan.c, s, seen, seen)
      invariant s.held == from.held && s.hostNext == from.hostNext
      invariant s.peer.next == from.peer.next + k && s.queued == from.queued + k
    {
      var queue := Queue(_ => NEUTRAL, 0);
      var a := Step(plan, s, seen, seen);
      OneMore(plan, events, s, Prepare(Stepping), a, true);
      PeerReadyIs(plan.c, s, seen, seen);
      var b := QueueUp(plan, a, seen);
      OneMore(plan, events + [Prepare(Stepping)], a, queue, b, true);
      PeerReadyIs(plan.c, b, seen, seen);
      events, s := events + [Prepare(Stepping)] + [queue], b;
    }
  }

  /** Lost bursts: a run in which the host is cut off. */
  lemma CutsOff(c: Config<Trace>) returns (host: Host, events: seq<Event>, s: Session<Trace>, f: nat)
    requires Traced(c) && (c.window > INPUT_HISTORY_FRAMES || c.delay > INPUT_HISTORY_FRAMES)
    ensures Reached(c, host, {}, events, s) && WholeBursts(events) && CutOff(c, s, f)
  {
    hide Traced, Reached;
    if c.delay > INPUT_HISTORY_FRAMES {
      host, events, s, f := CutsOffAtOnce(c);
    } else {
      host, events, s, f := CutsOffLater(c);
    }
  }

  lemma CutsOffAtOnce(c: Config<Trace>) returns (host: Host, events: seq<Event>, s: Session<Trace>, f: nat)
    requires Traced(c) && c.delay > INPUT_HISTORY_FRAMES
    ensures Reached(c, host, {}, events, s) && WholeBursts(events) && CutOff(c, s, f)
  {
    var i :| 0 <= i < |c.players| && c.players[i] !in c.locals;
    var plan := Plan(c, {}, c.players[i], c.base);
    var queue, from := Queue(_ => NEUTRAL, 0), Started(c, plan.Decides(), {});
    host, f := plan.Decides(), c.base;
    StartBlind(plan);
    assert Going(plan, [], from, true);
    hide AtRest, Blind, OwnReady, LastHeard, Goes, Going, Traced;
    s := QueueUp(plan, from, c.base);
    OneMore(plan, [], from, queue, s, true);
    events := [] + [queue];
    GoingReaches(plan, events, s);
    GoingWhole(plan, events, s);
  }

  lemma GoingWhole(plan: Plan, events: seq<Event>, s: Session<Trace>)
    requires Going(plan, events, s, true)
    ensures WholeBursts(events)
  {
    hide Runs, WholeBursts;
  }

  lemma CutsOffLater(c: Config<Trace>) returns (host: Host, events: seq<Event>, s: Session<Trace>, f: nat)
    requires Traced(c) && c.delay <= INPUT_HISTORY_FRAMES < c.window
    ensures Reached(c, host, {}, events, s) && WholeBursts(events) && CutOff(c, s, f)
  {
    hide *;
    var seen := c.base + c.delay + 1;
    var plan := FreshPlan(c, seen);
    events, s := HearFirst(plan, seen - 1, seen);
    host, f := plan.Decides(), seen;
    events, s := RunsAhead(plan, events, s, seen);
    GoingReaches(plan, events, s);
    GoingWhole(plan, events, s);
    IsCutOff(c, s, seen);
  }

  lemma FreshPlan(c: Config<Trace>, x: nat) returns (plan: Plan)
    requires Traced(c) && c.base <= x
    ensures Planned(plan) && plan.c == c && plan.held == {} && plan.x == x
    ensures c.delay <= INPUT_HISTORY_FRAMES ==> Fed(c, {}) && (c.delay < c.window ==> Lead(c) == c.delay)
  {
    var i :| 0 <= i < |c.players| && c.players[i] !in c.locals;
    plan := Plan(c, {}, c.players[i], x);
    FreshFed(c);
  }

  lemma RunsAhead(plan: Plan, before: seq<Event>, from: Session<Trace>, seen: nat)
    returns (events: seq<Event>, s: Session<Trace>)
    requires Planned(plan) && plan.held == {} && Went(plan, before, from, seen, seen, true)
    requires from.peer.next == plan.c.base && seen == plan.c.base + plan.c.delay + 1
    ensures Going(plan, events, s, true) && s.hostNext == from.hostNext && seen !in s.held
    ensures s.queued == seen + plan.c.window + 1
  {
    hide *;
    WentIs(plan, before, from, seen, seen, true);
    TickedIs(plan.c, from, seen, seen);
    NothingBeyond(plan, before, from, seen);
    events, s := StepsAlone(plan, before, from, seen, plan.c.window + 1);
  }

  lemma NothingBeyond(plan: Plan, events: seq<Event>, s: Session<Trace>, seen: nat)
    requires Went(plan, events, s, seen, seen, true) && plan.held == {} && s.peer.next == plan.c.base
    ensures s.queued == plan.c.base + plan.c.delay + 1 && s.queued !in s.held
  {
    RunHeldQueued(plan.c, plan.Decides(), Started(plan.c, plan.Decides(), {}), events, s);
    hide Runs;
  }

  lemma IsCutOff(c: Config<Trace>, s: Session<Trace>, seen: nat)
    requires s.hostNext == seen && seen !in s.held && s.queued == seen + c.window + 1 && c.window > INPUT_HISTORY_FRAMES
    ensures CutOff(c, s, seen)
  {
  }

  /**
   The exact condition for a host that begins with nothing of the peer: however bursts are lost, late or
   doubled, the peer's latest one is enough for the host to go on, exactly if window and delay are at
   most 12 frames.
   */
  lemma FeedsExactly(c: Config<Trace>)
    requires Traced(c)
    ensures c.window <= INPUT_HISTORY_FRAMES && c.delay <= INPUT_HISTORY_FRAMES <==>
            forall host: Host, events: seq<Event>, s: Session<Trace>, f: nat ::
              Reached(c, host, {}, events, s) && WholeBursts(events) ==> !CutOff(c, s, f)
  {
    if c.window <= INPUT_HISTORY_FRAMES && c.delay <= INPUT_HISTORY_FRAMES {
      forall host: Host, events: seq<Event>, s: Session<Trace>, f: nat |
        Reached(c, host, {}, events, s) && WholeBursts(events)
        ensures !CutOff(c, s, f)
      {
        SafeRun(c, host, {}, events, s);
        FreshFed(c);
        assert Slack(c) <= c.window;
        NeverCutOff(c, host, {}, events, s);
      }
    } else {
      var host, events, s, f := CutsOff(c);
    }
  }

  // ----- one exchange -----

  // What peer and host do: the peer queues, its burst arrives, the host decides as far as it may, its
  // burst arrives, and the peer takes a step.
  function Exchange(own: nat -> InputFrame, ours: nat, decided: nat, theirs: nat): seq<Event> {
    [Queue(own, 0), OwnArrives(ours)] + seq(decided, _ => HostSteps) + [BurstArrives(theirs), Prepare(Stepping)]
  }

  /**
   With window and delay at most 12 frames, whatever was lost before: one burst that gets through in
   each direction is enough. Then the peer has taken a step and is exactly in the host's state.
   */
  lemma OneExchange<S(!new)>(
    c: Config<S>, host: Host, held: set<nat>, events: seq<Event>, s: Session<S>, own: nat -> InputFrame)
    returns (ours: nat, decided: nat, theirs: nat, t: Session<S>)
    requires Short(c) && !Deadlocked(c) && Fed(c, held) && Solid(c, held) && Peerlike(c)
    requires WholeBursts(events) && Reached(c, host, held, events, s)
    ensures Runs(c, host, s, Exchange(own, ours, decided, theirs), t)
    ensures t.peer.next == s.peer.next + 1 && t.peer.state == Fold(c, TruthUpTo(c, host.truth, t.peer.next))
  {
    assert Slack(c) <= INPUT_HISTORY_FRAMES && HeldAtStart(c, held) && Runs(c, host, Started(c, host, held), events, s);
    hide *;
    var seen := RunStreams(c, host, held, events, s);
    var heard := RunNourished(c, host, held, events, s);
    var a := QueueOn(c, host, s, seen, heard, own);
    ours := a.queued - 1;
    var b := OwnOn(c, host, a, seen);
    var d;
    decided, d := HostOn(c, host, b, seen);
    theirs := d.hostNext - 1;
    var e := BurstOn(c, host, d, seen);
    t := StepOn(c, host, e);
    Exchanged(c, host, s, own, a, b, decided, d, e, t);
  }

  lemma QueueOn<S>(
    c: Config<S>, host: Host, s: Session<S>, seen: nat, heard: nat, own: nat -> InputFrame)
    returns (t: Session<S>)
    requires Short(c) && Peerlike(c) && Streamed(c, host, s, seen) && Nourished(c, s) && InStep(c, s, heard)
    ensures Goes(c, host, s, Queue(own, 0), t) && Streamed(c, host, t, seen) && Nourished(c, t)
    ensures t.peer.next == s.peer.next && t.queued == t.peer.next + c.delay + 1
  {
    var table := QueuedFrames(c, s.peer.table, s.queued, QueueEnd(c, s) - s.queued, own, 0);
    t := s.(queued := QueueEnd(c, s), peer := s.peer.(table := table));
    assert Goes(c, host, s, Queue(own, 0), t);
    assert Slack(c) <= INPUT_HISTORY_FRAMES && s.queued <= s.peer.next + c.delay + 1;
    assert t.queued == t.peer.next + c.delay + 1;
    hide *;
    assert t.queued == QueueEnd(c, s);
    OtherStreams(c, host, s, Queue(own, 0), t, seen);
    QueueNourished(c, s, heard, t);
  }

  lemma StreamedInStep<S>(c: Config<S>, host: Host, s: Session<S>, seen: nat)
    requires Streamed(c, host, s, seen)
    ensures InStep(c, s, seen) && c.base <= s.peer.next && c.base <= seen <= s.hostNext
  {
    hide AtRest, Faithful, RequestsFrom, HeardBelow, ConfirmedFrom;
  }

  lemma NourishedHolds<S>(c: Config<S>, s: Session<S>)
    requires Nourished(c, s)
    ensures forall f :: c.base <= f < s.queued && f !in s.held ==> f in OwnBurst(c, s.queued - 1)
  {
    hide Solid, Fed;
  }

  lemma OwnOn<S>(c: Config<S>, host: Host, s: Session<S>, seen: nat) returns (t: Session<S>)
    requires Peerlike(c) && Streamed(c, host, s, seen) && Nourished(c, s)
    requires s.queued == s.peer.next + c.delay + 1
    ensures Goes(c, host, s, OwnArrives(s.queued - 1), t) && Streamed(c, host, t, seen)
    ensures t == s.(held := t.held) && forall f :: c.base <= f < t.queued ==> f in t.held
  {
    t := s.(held := s.held + OwnBurst(c, s.queued - 1));
    hide Streamed, Nourished, Peerlike;
    StreamedInStep(c, host, s, seen);
    assert Goes(c, host, s, OwnArrives(s.queued - 1), t);
    NourishedHolds(c, s);
    hide *;
    OtherStreams(c, host, s, OwnArrives(s.queued - 1), t, seen);
  }

  lemma HostOn<S(!new)>(c: Config<S>, host: Host, s: Session<S>, seen: nat) returns (n: nat, t: Session<S>)
    requires Peerlike(c) && Streamed(c, host, s, seen) && s.queued == s.peer.next + c.delay + 1
    requires forall f :: c.base <= f < s.queued ==> f in s.held
    ensures Runs(c, host, s, seq(n, _ => HostSteps), t) && Streamed(c, host, t, seen)
    ensures t == s.(hostNext := t.hostNext) && t.hostNext > t.peer.next + Lead(c)
  {
    n, t := 0, s;
    hide Streamed;
    StreamedInStep(c, host, s, seen);
    hide InStep;
    while t.hostNext <= t.peer.next + Lead(c)
      invariant Runs(c, host, s, seq(n, _ => HostSteps), t) && Streamed(c, host, t, seen)
      invariant t == s.(hostNext := t.hostNext) && t.hostNext >= s.hostNext
      decreases t.peer.next + Lead(c) + 1 - t.hostNext
    {
      var u := t.(hostNext := t.hostNext + 1);
      assert s.queued - 1 in s.held;
      assert Goes(c, host, t, HostSteps, u);
      hide Streamed, Peerlike, Goes;
      OtherStreams(c, host, t, HostSteps, u, seen);
      RunsOn(c, host, s, seq(n, _ => HostSteps), t, HostSteps, u);
      assert seq(n, _ => HostSteps) + [HostSteps] == seq(n + 1, _ => HostSteps);
      n, t := n + 1, u;
    }
  }

  lemma RunsOn<S(!new)>(
    c: Config<S>, host: Host, from: Session<S>, events: seq<Event>, s: Session<S>, e: Event, t: Session<S>)
    requires Runs(c, host, from, events, s) && Goes(c, host, s, e, t)
    ensures Runs(c, host, from, events + [e], t)
  {
    hide Goes;
    var longer := events + [e];
    assert longer[..|longer| - 1] == events;
    assert Runs(c, host, from, longer[..|longer| - 1], s);
  }

  lemma BurstOn<S>(c: Config<S>, host: Host, s: Session<S>, seen: nat) returns (t: Session<S>)
    requires Short(c) && Peerlike(c) && Streamed(c, host, s, seen) && s.hostNext > 0
    ensures Goes(c, host, s, BurstArrives(s.hostNext - 1), t) && Streamed(c, host, t, s.hostNext)
    ensures t == s.(peer := t.peer) && t.peer.next == s.peer.next
  {
    hide *;
    var last := s.hostNext - 1;
    StreamedInStep(c, host, s, seen);
    t := BurstGoes(c, host, s, last);
    BurstReaches(c, host, s, BurstArrives(last), seen);
    ArrivalStreams(c, host, s, BurstArrives(last), t, seen, First(c, last), last + 1);
    MaxIs(seen, last + 1);
  }

  lemma BurstGoes<S>(c: Config<S>, host: Host, s: Session<S>, last: nat) returns (t: Session<S>)
    requires last < s.hostNext
    ensures Goes(c, host, s, BurstArrives(last), t) && t == s.(peer := t.peer) && t.peer.next == s.peer.next
  {
    t := s.(peer := CanonicalStored(s.peer, Burst(c, host, last)));
    hide CanonicalStored, Burst;
    StoresOnly(s.peer, Burst(c, host, last));
  }

  lemma MaxIs(a: nat, b: nat)
    requires a <= b
    ensures Max(a, b) == b
  {
  }

  // Everything up to the peer's next frame and as far as it needs is confirmed, and so it steps.
  lemma StepOn<S>(c: Config<S>, host: Host, s: Session<S>) returns (t: Session<S>)
    requires Short(c) && !Deadlocked(c) && Peerlike(c) && Streamed(c, host, s, s.hostNext)
    requires s.hostNext > s.peer.next + Lead(c) && s.peer.next + c.delay < s.queued
    ensures Goes(c, host, s, Prepare(Stepping), t) && t.peer.next == s.peer.next + 1
    ensures t.peer.state == Fold(c, TruthUpTo(c, host.truth, t.peer.next))
  {
    var p := s.peer;
    var r := Replayed(c, p);
    MayStepOn(c, host, s);
    HeardCatchesUp(c, host, s, s.hostNext);
    RequestsInside(c, host, s);
    hide *;
    t := s.(peer := NewFrame(c, r));
    CaughtUpIs(c, p, host.truth);
    ReplayedKeeps(c, p);
    PreparesConfirmed(c, p, r);
    GoesPrepared(c, host, s, t);
    OtherStreams(c, host, s, Prepare(Stepping), t, s.hostNext);
    NewFrameIs(c, r);
    EndsRight(c, host, t);
  }

  lemma NewFrameIs<S>(c: Config<S>, p: Peer<S>)
    ensures NewFrame(c, p).next == p.next + 1 && NewFrame(c, p).requested == p.requested
  {
  }

  lemma CaughtUpIs<S>(c: Config<S>, p: Peer<S>, truth: Truth)
    requires CaughtUp(c, p, truth)
    ensures !SnapshotMissing(p) && (p.requested.Some? ==> p.requested.value <= |p.used|)
  {
    hide SnapshotMissing;
  }

  lemma RequestsInside<S>(c: Config<S>, host: Host, s: Session<S>)
    requires Streamed(c, host, s, s.hostNext)
    ensures AtRest(c, s.peer) && (s.peer.requested.Some? ==> s.peer.requested.value >= c.From(s.peer.next, c.Kept()))
  {
    hide AtRest;
  }

  lemma MayStepOn<S>(c: Config<S>, host: Host, s: Session<S>)
    requires !Deadlocked(c) && Peerlike(c) && Streamed(c, host, s, s.hostNext)
    requires s.hostNext > s.peer.next + Lead(c)
    ensures CanStep(c, s.peer.table, s.peer.next) && Confirmed(c, s.peer.table, s.peer.next)
    ensures s.peer.next <= s.hostNext
  {
    var table, last := s.peer.table, s.hostNext - 1;
    hide AtRest;
    assert c.base <= s.peer.next;
    assert Confirmed(c, table, last);
    forall i | 0 <= i < |c.players| && c.players[i] !in c.locals
      ensures NearEnough(c, table, c.players[i], s.peer.next)
    {
      assert IsLatest(table, c.players[i], last);
    }
  }

  lemma PreparesConfirmed<S>(c: Config<S>, p: Peer<S>, r: Peer<S>)
    requires CanStep(c, p.table, p.next) && Confirmed(c, p.table, p.next) && !SnapshotMissing(p)
    requires p.requested.Some? ==> p.requested.value <= |p.used|
    requires r == Replayed(c, p) && AtRest(c, r) && r.table == p.table && r.next == p.next
    ensures PreparedTo(c, p, Stepping, NewFrame(c, r))
  {
    assert Predicts(c, r.table, r.next, r.table);
    assert r.(table := r.table) == r;
    assert BuiltWith(c, r, r.table, Stepping, NewFrame(c, r));
    hide CanStep, AtRest, NewFrame, Predicts, BuiltWith, SnapshotMissing, Replayed, Confirmed;
  }

  lemma GoesPrepared<S>(c: Config<S>, host: Host, s: Session<S>, t: Session<S>)
    requires s.peer.next + c.delay < s.queued && PreparedTo(c, s.peer, Stepping, t.peer) && t == s.(peer := t.peer)
    ensures Goes(c, host, s, Prepare(Stepping), t)
  {
    hide PreparedTo;
  }

  lemma EndsRight<S>(c: Config<S>, host: Host, s: Session<S>)
    requires Streamed(c, host, s, s.hostNext) && s.peer.next <= s.hostNext && s.peer.requested.None?
    ensures s.peer.state == Fold(c, TruthUpTo(c, host.truth, s.peer.next))
  {
    hide Fold, TruthUpTo, Confirmed;
    SoundRight(c, host, s, s.hostNext);
    hide Sound;
  }

  lemma RunsNone<S(!new)>(c: Config<S>, host: Host, s: Session<S>)
    ensures Runs(c, host, s, [], s)
  {
  }

  lemma {:induction false} RunsAfter<S(!new)>(
    c: Config<S>, host: Host, from: Session<S>, a: seq<Event>, s: Session<S>, b: seq<Event>, t: Session<S>)
    requires Runs(c, host, from, a, s) && Runs(c, host, s, b, t)
    ensures Runs(c, host, from, a + b, t)
    decreases |b|
  {
    if b == [] {
      assert a + b == a;
    } else {
      hide Goes;
      var front, m, e := LastStep(c, host, s, b, t);
      hide Runs;
      RunsAfter(c, host, from, a, s, front, m);
      RunsOn(c, host, from, a + front, m, e, t);
      assert a + front + [e] == a + b;
    }
  }

  lemma Exchanged<S(!new)>(
    c: Config<S>, host: Host, s: Session<S>, own: nat -> InputFrame, a: Session<S>, b: Session<S>, n: nat,
    d: Session<S>, e: Session<S>, t: Session<S>)
    requires Goes(c, host, s, Queue(own, 0), a) && a.queued > 0 && Goes(c, host, a, OwnArrives(a.queued - 1), b)
    requires Runs(c, host, b, seq(n, _ => HostSteps), d) && d.hostNext > 0
    requires Goes(c, host, d, BurstArrives(d.hostNext - 1), e) && Goes(c, host, e, Prepare(Stepping), t)
    ensures Runs(c, host, s, Exchange(own, a.queued - 1, n, d.hostNext - 1), t)
  {
    var ours, theirs := OwnArrives(a.queued - 1), BurstArrives(d.hostNext - 1);
    var opening, steps := [] + [Queue(own, 0)] + [ours], seq(n, _ => HostSteps);
    RunsNone(c, host, s);
    hide Goes, Runs;
    RunsOn(c, host, s, [], s, Queue(own, 0), a);
    RunsOn(c, host, s, [] + [Queue(own, 0)], a, ours, b);
    RunsAfter(c, host, s, opening, b, steps, d);
    RunsOn(c, host, s, opening + steps, d, theirs, e);
    RunsOn(c, host, s, opening + steps + [theirs], e, Prepare(Stepping), t);
    assert opening + steps + [theirs] + [Prepare(Stepping)] == Exchange(own, a.queued - 1, n, d.hostNext - 1);
  }
}
