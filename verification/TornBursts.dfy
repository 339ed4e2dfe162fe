/**
 Two players and packets that are lost one by one. A burst for two players is at most two
 packets, and the second starts eight frames into it.
 */
module TornBursts {
  import opened Options
  import opened InputFrames
  import opened InputBuffer
  import opened PeerRollback
  import opened HostStream
  import opened LostFrames

  const PACKET_FRAMES: nat := 8

  // ----- what a packet carries -----

  lemma {:induction false} RowsOfTwo<S>(c: Config<S>, host: Host, first: nat, n: nat)
    requires |c.players| == 2
    ensures var records := Rows(c, host, first, n);
            && |records| == 2 * n
            && forall j :: 0 <= j < 2 * n ==> records[j] == host.Canon(c.players[j % 2], first + j / 2)
  {
    if n > 0 { RowsOfTwo(c, host, first, n - 1); }
  }

  // The frames of the j-th packet: from the first of these up to the second.
  function PacketStart<S>(c: Config<S>, last: nat, j: nat): nat {
    if j == 0 then First(c, last)
    else if j == 1 && last + 1 - First(c, last) > PACKET_FRAMES then First(c, last) + PACKET_FRAMES
    else 0
  }

  function PacketEnd<S>(c: Config<S>, last: nat, j: nat): nat {
    if j == 0 && last + 1 - First(c, last) > PACKET_FRAMES then First(c, last) + PACKET_FRAMES
    else if j == 0 || (j == 1 && last + 1 - First(c, last) > PACKET_FRAMES) then last + 1
    else 0
  }

  // The records of the frames from a up to b.
  lemma RowsCut<S>(c: Config<S>, host: Host, first: nat, n: nat, a: nat, b: nat, k: Key)
    requires |c.players| == 2 && first <= a <= b <= first + n
    ensures |Rows(c, host, first, n)| == 2 * n
    ensures Names(Rows(c, host, first, n)[2 * (a - first)..2 * (b - first)], k) <==>
            a <= k.frame < b && k.playerId in c.players
  {
    var records := Rows(c, host, first, n);
    RowsOfTwo(c, host, first, n);
    hide Rows;
    var from, cut := 2 * (a - first), records[2 * (a - first)..2 * (b - first)];
    assert forall i :: 0 <= i < |cut| ==> cut[i] == records[from + i];
    if a <= k.frame < b && k.playerId in c.players {
      var i := 2 * (k.frame - first) + if k.playerId == c.players[0] then 0 else 1;
      assert records[i].KeyOf() == k;
      assert cut[i - from].KeyOf() == k;
    }
  }

  lemma PacketIs<S>(c: Config<S>, host: Host, last: nat, j: nat)
    requires |c.players| == 2
    ensures var records, a, b := Burst(c, host, last), PacketStart(c, last, j), PacketEnd(c, last, j);
            && a <= b && (a < b ==> First(c, last) <= a && b <= last + 1)
            && |records| == 2 * (last + 1 - First(c, last))
            && Packet(c, host, last, j) ==
               if a == b then [] else records[2 * (a - First(c, last))..2 * (b - First(c, last))]
  {
    RowsOfTwo(c, host, First(c, last), last + 1 - First(c, last));
    assert last + 1 - First(c, last) <= 13;
    hide Rows, First;
  }

  /** A packet of a two-player burst carries both players' records of its frames and no others. */
  lemma PacketCarries<S>(c: Config<S>, host: Host, last: nat, j: nat, k: Key)
    requires |c.players| == 2
    ensures Names(Packet(c, host, last, j), k) <==>
            PacketStart(c, last, j) <= k.frame < PacketEnd(c, last, j) && k.playerId in c.players
  {
    var first, a, b := First(c, last), PacketStart(c, last, j), PacketEnd(c, last, j);
    hide First, Names, Packet, Rows, PacketStart, PacketEnd;
    PacketIs(c, host, last, j);
    if a < b { RowsCut(c, host, first, last + 1 - first, a, b, k); } else { NamesNothing(k); }
  }

  lemma NamesNothing(k: Key)
    ensures !Names([], k)
  {
  }

  // ----- the packets that leave no gap -----

  /**
   No packet can start beyond what was heard: the session begins after the first packet and the
   window is at most three frames; or every frame must be heard before the next step, and the
   first ones all fit into one packet; or nearly so.
   */
  predicate Gapless<S>(c: Config<S>) {
    || (c.base >= PACKET_FRAMES && c.window <= 3)
    || (c.delay == 2 * c.window && c.base + c.window < PACKET_FRAMES)
    || (c.delay == 7 == c.base + c.window && 4 <= c.window <= 5)
  }

  lemma PacketReaches<S>(c: Config<S>, host: Host, s: Session<S>, e: Event, seen: nat)
    requires |c.players| == 2 && Gapless(c) && InStep(c, s, seen) && e.PacketArrives? && e.last < s.hostNext
    ensures Reaching(c, host, s, e, seen, PacketStart(c, e.last, e.j), PacketEnd(c, e.last, e.j))
  {
    forall k ensures Names(Heard(c, host, e), k) <==>
                     PacketStart(c, e.last, e.j) <= k.frame < PacketEnd(c, e.last, e.j) && k.playerId in c.players {
      PacketCarries(c, host, e.last, e.j, k);
    }
    hide Heard, Names;
    if e.j == 1 { SecondReaches(c, s, e.last, seen); }
  }

  lemma SecondReaches<S>(c: Config<S>, s: Session<S>, last: nat, seen: nat)
    requires Gapless(c) && InStep(c, s, seen) && last < s.hostNext
    ensures PacketStart(c, last, 1) <= seen || PacketStart(c, last, 1) <= c.base
  {
  }

  lemma TornStreams<S>(c: Config<S>, host: Host, s: Session<S>, e: Event, t: Session<S>, heard: nat) returns (seen: nat)
    requires TwoGapless(c) && Streamed(c, host, s, heard) && Goes(c, host, s, e, t)
    ensures Streamed(c, host, t, seen) && e != Prepare(Resync)
  {
    if e.PacketArrives? {
      PacketReaches(c, host, s, e, heard);
      ArrivalStreams(c, host, s, e, t, heard, PacketStart(c, e.last, e.j), PacketEnd(c, e.last, e.j));
      seen := Max(heard, PacketEnd(c, e.last, e.j));
    } else {
      seen := EventStreams(c, host, s, e, t, heard);
    }
  }

  ghost predicate TwoGapless<S>(c: Config<S>) { |c.players| == 2 && Gapless(c) && Peerlike(c) }

  lemma {:induction false} RunTornStreams<S(!new)>(
    c: Config<S>, host: Host, held: set<nat>, events: seq<Event>, s: Session<S>) returns (seen: nat)
    requires TwoGapless(c) && HeldAtStart(c, held) && Runs(c, host, Started(c, host, held), events, s)
    ensures Streamed(c, host, s, seen) && Prepare(Resync) !in events
    decreases |events|
  {
    if events == [] {
      StartStreams(c, host, held);
      return c.base;
    }
    hide Goes, Runs, Streamed, TwoGapless, Started, HeldAtStart;
    var front, m, e := LastStep(c, host, Started(c, host, held), events, s);
    seen := RunTornStreams(c, host, held, front, m);
    seen := TornStreams(c, host, m, e, s, seen);
  }

  /** Then every run is right, whatever packets are lost, late or doubled. */
  lemma TornSafeRun<S(!new)>(c: Config<S>, host: Host, held: set<nat>, events: seq<Event>, s: Session<S>)
    requires TwoGapless(c) && Reached(c, host, held, events, s)
    ensures Prepare(Resync) !in events && Faithful(c, s.peer, host.truth) && RightAtRest(c, host, s)
  {
    var seen := RunTornStreams(c, host, held, events, s);
    SoundRight(c, host, s, seen);
  }

  // ----- the packets that do -----

  lemma SecondsBehind(plan: Plan, y: nat)
    requires |plan.c.players| == 2 && y >= PACKET_FRAMES && plan.x < First(plan.c, y) + PACKET_FRAMES
    ensures Behind(plan, y, true)
  {
    var c, host := plan.c, plan.Decides();
    forall last: nat | last >= y ensures Misses(plan, Arrival(last, true)) {
      PacketCarries(c, host, last, 1, Key(plan.who, plan.x));
      PacketCarries(c, host, last, 1, Key(c.players[0], last));
      PacketCarries(c, host, last, 1, Key(c.players[1], last));
      hide Packet, Names;
    }
  }

  // Nothing is heard but second packets, from the first on.
  lemma LostAtOnce(c: Config<Trace>, held: set<nat>, who: nat)
    returns (host: Host, events: seq<Event>, s: Session<Trace>)
    requires Traced(c) && HeldAtStart(c, held) && Fed(c, held) && Remote(c, who) && |c.players| == 2 && !Deadlocked(c)
    requires c.base + Lead(c) >= PACKET_FRAMES && c.base < First(c, c.base + Lead(c)) + PACKET_FRAMES
    ensures Reached(c, host, held, events, s) && RestsWrong(c, host, s)
  {
    var plan, y := Plan(c, held, who, c.base), c.base + Lead(c);
    var seen;
    host := plan.Decides();
    hide Went, Traced, RestsWrong, Behind;
    events, s := Begin(plan, y);
    SecondsBehind(plan, y);
    WentLoosely(plan, events, s, c.base, y);
    events, s, seen := GoOn(plan, events, s, c.base, y, true);
    EndsWrong(plan, events, s, seen, y, false);
  }

  function SilentTicks<S>(c: Config<S>): nat { BurstLength(c) - 7 }

  // One burst is heard, then nothing for as long as it takes, then second packets.
  lemma LostInSilence(c: Config<Trace>, held: set<nat>, who: nat)
    returns (host: Host, events: seq<Event>, s: Session<Trace>)
    requires Traced(c) && HeldAtStart(c, held) && Fed(c, held) && Remote(c, who) && |c.players| == 2 && !Deadlocked(c)
    requires Slack(c) >= BurstLength(c) - PACKET_FRAMES && c.base + Lead(c) + BurstLength(c) >= 15
    ensures Reached(c, host, held, events, s) && RestsWrong(c, host, s)
  {
    hide *;
    var first, ticks := c.base + Lead(c), SilentTicks(c);
    var plan, y := Plan(c, held, who, first + 1), first + ticks;
    var seen;
    host := plan.Decides();
    SilenceFits(c, first, ticks, y);
    MakesPlan(plan);
    SecondsBehind(plan, y);
    events, s := HearFirst(plan, first, y);
    events, s := GoSilent(plan, events, s, first + 1, y, ticks);
    WentLoosely(plan, events, s, first + 1, y);
    events, s, seen := GoOn(plan, events, s, first + 1, y, true);
    EndsWrong(plan, events, s, seen, y, false);
  }

  lemma SilenceFits(c: Config<Trace>, first: nat, ticks: nat, y: nat)
    requires !Deadlocked(c) && Slack(c) >= BurstLength(c) - PACKET_FRAMES && c.base + Lead(c) + BurstLength(c) >= 15
    requires first == c.base + Lead(c) && ticks == SilentTicks(c) && y == first + ticks
    ensures BurstLength(c) > 8 && y >= PACKET_FRAMES && first + 1 < First(c, y) + PACKET_FRAMES && first + 1 <= y
    ensures c.delay < first + 1 && c.base + ticks + c.delay <= first + 1 + c.window
  {
  }

  // Frames are heard up to 6, frame 7 is lost, and then nothing but second packets is heard.
  lemma LostAfterSeven(c: Config<Trace>, held: set<nat>, who: nat)
    returns (host: Host, events: seq<Event>, s: Session<Trace>)
    requires Traced(c) && HeldAtStart(c, held) && Fed(c, held) && Remote(c, who) && |c.players| == 2 && !Deadlocked(c)
    requires Lead(c) > 0 && c.base + Lead(c) <= 7 && Slack(c) >= 1 && c.delay <= 6
    ensures Reached(c, host, held, events, s) && RestsWrong(c, host, s)
  {
    var plan, y := Plan(c, held, who, 7), 8;
    var seen;
    host := plan.Decides();
    SecondsBehind(plan, y);
    assert 7 + c.delay < 7 + c.window + Lead(c);
    hide *;
    MakesPlan(plan);
    events, s := HearSeven(plan, y);
    events, s := TickOne(plan, events, s, 7, y, true);
    WentLoosely(plan, events, s, 7, y);
    events, s, seen := GoOn(plan, events, s, 7, y, true);
    EndsWrong(plan, events, s, seen, y, false);
  }

  lemma HearSeven(plan: Plan, y: nat) returns (events: seq<Event>, s: Session<Trace>)
    requires Planned(plan) && Fed(plan.c, plan.held) && !Deadlocked(plan.c) && plan.x == 7 <= y
    requires Lead(plan.c) > 0 && plan.c.base + Lead(plan.c) <= 7
    ensures Went(plan, events, s, 7, y, true) && s.hostNext == 8 == s.peer.next + Lead(plan.c) + 1
    ensures plan.c.base < 7
  {
    hide Went, Misses, Planned, Deadlocked, Fed;
    var seen: nat := plan.c.base;
    events, s := Begin(plan, y);
    if s.hostNext == 8 {
      BurstMisses(plan, 6);
      events, s := HearOne(plan, events, s, BurstArrives(6), seen, y, true);
      return;
    }
    while s.hostNext <= 7
      invariant Went(plan, events, s, seen, y, true) && s.hostNext <= 8
      invariant s.hostNext == s.peer.next + Lead(plan.c) + 1
      invariant seen <= s.hostNext && (s.hostNext > 7 ==> seen == 7)
      decreases 8 - s.hostNext
    {
      var last := s.hostNext - 1;
      BurstMisses(plan, last);
      events, s := HeardTick(plan, events, s, BurstArrives(last), seen, y, true);
      seen := last + 1;
    }
  }

  /** Lost packets: in every other session that starts, a run that ends wrong for good. */
  lemma LostPackets(c: Config<Trace>, held: set<nat>, who: nat)
    returns (host: Host, events: seq<Event>, s: Session<Trace>)
    requires Traced(c) && HeldAtStart(c, held) && Remote(c, who) && |c.players| == 2 && c.delay > 0 && c.window > 0
    requires !TornSafe(c, held)
    ensures Reached(c, host, held, events, s) && RestsWrong(c, host, s)
  {
    hide Traced, RestsWrong, Fed, HeldAtStart, Reached;
    if c.base + Lead(c) >= PACKET_FRAMES && c.base < First(c, c.base + Lead(c)) + PACKET_FRAMES {
      host, events, s := LostAtOnce(c, held, who);
    } else if Slack(c) >= BurstLength(c) - PACKET_FRAMES && c.base + Lead(c) + BurstLength(c) >= 15 {
      host, events, s := LostInSilence(c, held, who);
    } else {
      host, events, s := LostAfterSeven(c, held, who);
    }
  }

  ghost predicate TornSafe<S>(c: Config<S>, held: set<nat>) { Gapless(c) || Deadlocked(c) || !Fed(c, held) }

  /** The exact condition for two players, if packets can be lost one by one. */
  lemma TornExactly(c: Config<Trace>, held: set<nat>)
    requires Traced(c) && HeldAtStart(c, held) && |c.players| == 2 && c.delay > 0 && c.window > 0
    ensures TornSafe(c, held) <==>
            forall host: Host, events: seq<Event>, s: Session<Trace> ::
              Reached(c, host, held, events, s) ==> RightAtRest(c, host, s)
  {
    if TornSafe(c, held) {
      forall host: Host, events: seq<Event>, s: Session<Trace> | Reached(c, host, held, events, s)
        ensures RightAtRest(c, host, s)
      {
        TornAtRest(c, host, held, events, s);
      }
    } else {
      var i :| 0 <= i < |c.players| && c.players[i] !in c.locals;
      var host, events, s := LostPackets(c, held, c.players[i]);
    }
  }

  lemma TornAtRest<S(!new)>(c: Config<S>, host: Host, held: set<nat>, events: seq<Event>, s: Session<S>)
    requires TornSafe(c, held) && |c.players| == 2 && Peerlike(c) && Reached(c, host, held, events, s)
    ensures RightAtRest(c, host, s)
  {
    if Gapless(c) {
      TornSafeRun(c, host, held, events, s);
    } else if Deadlocked(c) {
      NeverStarts(c, host, held, events, s);
    } else {
      var g: nat :| Skipped(c, held, g);
      UnfedRun(c, host, held, events, s, g);
    }
  }
}
