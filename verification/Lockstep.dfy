/**
 Two lockstep peers over the faulty network. Each peer sends all of its own inputs so far
 in every packet and steps a frame only when both players' inputs for it are recorded.
 */
module Lockstep {
  import opened Options
  import opened InputFrames
  import opened InputBuffer
  import opened Simulation
  import opened FakeNetwork

  // ----- records that say what the script says -----

  ghost predicate HonestRecord(r: Record, script: Script) {
    && r.playerId != INVALID_PLAYER_ID
    && !r.predicted && !r.canonical && !r.arbitratedMissing
    && r.input == ScriptInput(script, r.playerId, r.frame)
  }

  ghost predicate HonestTable(table: Table, script: Script) {
    forall k :: k in table ==> table[k].KeyOf() == k && HonestRecord(table[k], script)
  }

  ghost predicate HonestRecords(records: seq<Record>, script: Script) {
    forall i :: 0 <= i < |records| ==> HonestRecord(records[i], script)
  }

  ghost predicate HasKey(records: seq<Record>, k: Key) {
    exists i :: 0 <= i < |records| && records[i].KeyOf() == k
  }

  // Every frame below n of the player is among the records.
  ghost predicate Covers(records: seq<Record>, playerId: nat, n: nat) {
    forall f :: 0 <= f < n ==> HasKey(records, Key(playerId, f))
  }

  ghost predicate Holds(table: Table, playerId: nat, first: nat, n: nat) {
    forall f :: first <= f < n ==> Key(playerId, f) in table
  }

  // Exactly the frames below n of the player.
  ghost predicate Carries(records: seq<Record>, playerId: nat, n: nat) {
    forall k :: HasKey(records, k) <==> k.playerId == playerId && k.frame < n
  }

  // The player's frames below n, but for frames that were stepped and may have been forgotten.
  ghost predicate Knows(table: Table, next: nat, playerId: nat, n: nat) {
    && (forall f: nat :: Key(playerId, f) in table ==> f < n)
    && (forall f: nat :: next <= f < n ==> Key(playerId, f) in table)
  }

  function Least(a: nat, b: nat): nat { if a < b then a else b }

  function Most(a: nat, b: nat): nat { if a > b then a else b }

  /** Storing script records into a buffer of script records only adds keys. */
  lemma StoreHonest(table: Table, r: Record, script: Script)
    requires HonestTable(table, script) && HonestRecord(r, script)
    ensures HonestTable(Stored(table, r), script)
    ensures Stored(table, r).Keys == table.Keys + {r.KeyOf()}
  {
  }

  lemma HonestOn(records: seq<Record>, r: Record, script: Script)
    requires HonestRecords(records, script) && HonestRecord(r, script)
    ensures HonestRecords(records + [r], script)
  {
  }

  lemma KeptHonest(table: Table, frame: nat, script: Script)
    requires HonestTable(table, script)
    ensures HonestTable(KeptFrom(table, frame), script)
  {
  }

  // Only frames below n of these players.
  ghost predicate OwnedBelow(records: seq<Record>, players: seq<nat>, n: nat) {
    forall i :: 0 <= i < |records| ==> records[i].playerId in players && records[i].frame < n
  }

  // The state is the script folded up to the next frame, and so was every hash recorded.
  ghost predicate Agreed<S>(
    tick: (S, Inputs) -> S, hash: S -> nat, init: S, script: Script, state: S, next: nat, hashes: seq<nat>)
  {
    && state == Truth(tick, init, script, next)
    && |hashes| == next
    && forall i :: 0 <= i < |hashes| ==> hashes[i] == hash(Truth(tick, init, script, i + 1))
  }

  /** Stepping on the inputs of an honest buffer keeps the agreement. */
  lemma StepAgrees<S>(
    tick: (S, Inputs) -> S, hash: S -> nat, init: S, script: Script, state: S, next: nat, hashes: seq<nat>,
    table: Table)
    requires Agreed(tick, hash, init, script, state, next, hashes) && HonestTable(table, script)
    requires Key(1, next) in table && Key(2, next) in table
    ensures var after := tick(state, Inputs(table[Key(1, next)].input, table[Key(2, next)].input));
            Agreed(tick, hash, init, script, after, next + 1, hashes + [hash(after)])
  {
  }

  /** One simulated peer. */
  class FakeLockstepPeer<S> {
    const tick: (S, Inputs) -> S
    const hash: S -> nat
    const init: S
    const script: Script
    const peerId: nat
    const ownedPlayers: seq<nat>
    const inputBuffer: LockstepInputBuffer
    var state: S
    var nextFrameToStep: nat
    var nextPacketSequence: nat
    var frameHashes: seq<nat>

    constructor (tick: (S, Inputs) -> S, hash: S -> nat, init: S, script: Script, peerId: nat, ownedPlayers: seq<nat>)
      requires INVALID_PLAYER_ID !in ownedPlayers
      ensures Valid() && fresh(inputBuffer) && nextFrameToStep == 0 && inputBuffer.table == map[]
      ensures this.tick == tick && this.hash == hash && this.init == init && this.script == script
      ensures this.peerId == peerId && this.ownedPlayers == ownedPlayers
    {
      this.tick, this.hash, this.init, this.script := tick, hash, init, script;
      this.peerId, this.ownedPlayers := peerId, ownedPlayers;
      inputBuffer := new LockstepInputBuffer();
      state, nextFrameToStep, nextPacketSequence, frameHashes := init, 0, 1, [];
    }

    ghost predicate Valid()
      reads this, inputBuffer
    {
      && inputBuffer.Valid()
      && HonestTable(inputBuffer.table, script)
      && INVALID_PLAYER_ID !in ownedPlayers
      && Agreed(tick, hash, init, script, state, nextFrameToStep, frameHashes)
    }

    // All of the peer's inputs up to the latest frame, stored locally and packed for sending.
    method BuildInputPacket(latestFrame: nat) returns (packet: Packet)
      requires Valid()
      modifies this`nextPacketSequence, inputBuffer
      ensures Valid()
      ensures HonestRecords(packet.records, script)
      ensures old(inputBuffer.table).Keys <= inputBuffer.table.Keys
      ensures forall p :: p in ownedPlayers ==>
                Covers(packet.records, p, latestFrame + 1) && Holds(inputBuffer.table, p, 0, latestFrame + 1)
      ensures OwnedBelow(packet.records, ownedPlayers, latestFrame + 1)
      ensures forall k :: k in inputBuffer.table ==>
                k in old(inputBuffer.table) || (k.playerId in ownedPlayers && k.frame <= latestFrame)
    {
      var records: seq<Record> := [];
      assert HonestRecords(records, script);
      hide Agreed, HonestTable, HonestRecords, Represents;
      var sequence := nextPacketSequence;
      nextPacketSequence := nextPacketSequence + 1;
      for frame := 0 to latestFrame + 1
        invariant Valid() && HonestRecords(records, script)
        invariant old(inputBuffer.table).Keys <= inputBuffer.table.Keys
        invariant forall p :: p in ownedPlayers ==> Covers(records, p, frame) && Holds(inputBuffer.table, p, 0, frame)
        invariant OwnedBelow(records, ownedPlayers, frame)
        invariant forall k :: k in inputBuffer.table ==>
                    k in old(inputBuffer.table) || (k.playerId in ownedPlayers && k.frame < frame)
      {
        ghost var sofar := records;
        records := PackFrame(frame, sequence, records);
        forall p | p in ownedPlayers
          ensures Covers(records, p, frame + 1) && Holds(inputBuffer.table, p, 0, frame + 1)
        {
          forall f | 0 <= f < frame ensures HasKey(records, Key(p, f)) {
            assert HasKey(sofar, Key(p, f));
            var i :| 0 <= i < |sofar| && sofar[i].KeyOf() == Key(p, f);
            assert records[i] == sofar[i];
          }
        }
      }
      packet := Packet(peerId, sequence, records);
    }

    // One frame of every owned player.
    method PackFrame(frame: nat, sequence: nat, sofar: seq<Record>) returns (records: seq<Record>)
      requires Valid() && HonestRecords(sofar, script)
      modifies inputBuffer
      ensures Valid() && HonestRecords(records, script) && sofar <= records
      ensures old(inputBuffer.table).Keys <= inputBuffer.table.Keys
      ensures forall p :: p in ownedPlayers ==> Key(p, frame) in inputBuffer.table
      ensures forall p :: p in ownedPlayers ==> HasKey(records, Key(p, frame))
      ensures forall i :: |sofar| <= i < |records| ==> records[i].playerId in ownedPlayers && records[i].frame == frame
      ensures forall k :: k in inputBuffer.table ==>
                k in old(inputBuffer.table) || (k.playerId in ownedPlayers && k.frame == frame)
    {
      hide HonestTable, Agreed, Represents, HonestRecords, LockstepInputBuffer.Valid;
      records := sofar;
      for p := 0 to |ownedPlayers|
        invariant Valid() && HonestRecords(records, script)
        invariant |records| == |sofar| + p && sofar <= records
        invariant old(inputBuffer.table).Keys <= inputBuffer.table.Keys
        invariant forall q :: 0 <= q < p ==> Key(ownedPlayers[q], frame) in inputBuffer.table
        invariant forall q :: 0 <= q < p ==> records[|sofar| + q].KeyOf() == Key(ownedPlayers[q], frame)
        invariant forall i :: |sofar| <= i < |records| ==> records[i].KeyOf() == Key(ownedPlayers[i - |sofar|], frame)
        invariant forall k :: k in inputBuffer.table ==>
                    k in old(inputBuffer.table) || (k.playerId in ownedPlayers && k.frame == frame)
      {
        var player := ownedPlayers[p];
        var record := Record(player, frame, sequence, ScriptInput(script, player, frame), false, false, false);
        HonestOn(records, record, script);
        StoreOne(record);
        records := records + [record];
      }
    }

    method StoreOne(record: Record)
      requires Valid() && HonestRecord(record, script)
      modifies inputBuffer
      ensures Valid() && inputBuffer.table.Keys == old(inputBuffer.table).Keys + {record.KeyOf()}
    {
      StoreHonest(inputBuffer.table, record, script);
      hide HonestTable, Agreed, Represents, Stored, Outcome;
      var _ := inputBuffer.Store(record);
    }

    method StorePacket(packet: Packet)
      requires Valid() && HonestRecords(packet.records, script)
      modifies inputBuffer
      ensures Valid()
      ensures old(inputBuffer.table).Keys <= inputBuffer.table.Keys
      ensures forall i :: 0 <= i < |packet.records| ==> packet.records[i].KeyOf() in inputBuffer.table
      ensures forall k :: k in inputBuffer.table ==> k in old(inputBuffer.table) || HasKey(packet.records, k)
    {
      hide HonestTable, Agreed, Represents, HonestRecord, LockstepInputBuffer.Valid;
      for i := 0 to |packet.records|
        invariant Valid() && old(inputBuffer.table).Keys <= inputBuffer.table.Keys
        invariant forall j :: 0 <= j < i ==> packet.records[j].KeyOf() in inputBuffer.table
        invariant forall k :: k in inputBuffer.table ==> k in old(inputBuffer.table) || HasKey(packet.records, k)
      {
        assert HonestRecord(packet.records[i], script);
        StoreOne(packet.records[i]);
      }
    }

    method StorePackets(packets: seq<Packet>)
      requires Valid() && forall p :: 0 <= p < |packets| ==> HonestRecords(packets[p].records, script)
      modifies inputBuffer
      ensures Valid()
      ensures old(inputBuffer.table).Keys <= inputBuffer.table.Keys
      ensures forall p, i :: 0 <= p < |packets| && 0 <= i < |packets[p].records| ==>
                packets[p].records[i].KeyOf() in inputBuffer.table
      ensures forall k :: k in inputBuffer.table ==>
                k in old(inputBuffer.table) || exists p :: 0 <= p < |packets| && HasKey(packets[p].records, k)
    {
      hide HasKey;
      for p := 0 to |packets|
        invariant Valid() && old(inputBuffer.table).Keys <= inputBuffer.table.Keys
        invariant forall q, i :: 0 <= q < p && 0 <= i < |packets[q].records| ==>
                    packets[q].records[i].KeyOf() in inputBuffer.table
        invariant forall k :: k in inputBuffer.table ==>
                    k in old(inputBuffer.table) || exists q :: 0 <= q < p && HasKey(packets[q].records, k)
      {
        StorePacket(packets[p]);
      }
    }

    /**
     Step every frame whose inputs are all there, in order, forgetting inputs more than
     four frames old. It stops at the first frame that misses an input, never earlier:
     forgetting removes nothing that is still needed.
     */
    method StepReadyFrames(totalFrames: nat)
      requires Valid()
      modifies this`state, this`nextFrameToStep, this`frameHashes, inputBuffer
      ensures Valid()
      ensures nextFrameToStep >= old(nextFrameToStep)
      ensures nextFrameToStep > totalFrames ==> nextFrameToStep == old(nextFrameToStep)
      ensures forall f :: old(nextFrameToStep) <= f < nextFrameToStep ==>
                Key(1, f) in old(inputBuffer.table) && Key(2, f) in old(inputBuffer.table)
      ensures nextFrameToStep < totalFrames ==>
                Key(1, nextFrameToStep) !in old(inputBuffer.table) || Key(2, nextFrameToStep) !in old(inputBuffer.table)
      ensures forall k :: k in old(inputBuffer.table) && k.frame >= nextFrameToStep ==> k in inputBuffer.table
      ensures inputBuffer.table.Keys <= old(inputBuffer.table).Keys
    {
      hide Agreed, HonestTable, Represents;
      var ready, inputs := true, [];
      while nextFrameToStep < totalFrames && ready
        invariant Valid() && nextFrameToStep >= old(nextFrameToStep)
        invariant nextFrameToStep > totalFrames ==> nextFrameToStep == old(nextFrameToStep)
        invariant forall f :: old(nextFrameToStep) <= f < nextFrameToStep ==>
                    Key(1, f) in old(inputBuffer.table) && Key(2, f) in old(inputBuffer.table)
        invariant forall k :: k in old(inputBuffer.table) && k.frame >= nextFrameToStep ==> k in inputBuffer.table
        invariant inputBuffer.table.Keys <= old(inputBuffer.table).Keys
        invariant !ready ==>
                    Key(1, nextFrameToStep) !in inputBuffer.table || Key(2, nextFrameToStep) !in inputBuffer.table
        decreases totalFrames - nextFrameToStep, ready
      {
        ghost var players := [1, 2];
        ready, inputs := inputBuffer.BuildFrameInputs([1, 2], nextFrameToStep);
        assert ready ==> Key(players[0], nextFrameToStep) in inputBuffer.table &&
                         Key(players[1], nextFrameToStep) in inputBuffer.table;
        if ready {
          StepOne(inputs);
        }
      }
    }

    method StepOne(inputs: seq<InputFrame>)
      requires Valid() && Key(1, nextFrameToStep) in inputBuffer.table && Key(2, nextFrameToStep) in inputBuffer.table
      requires |inputs| == 2 && inputs[0] == inputBuffer.table[Key(1, nextFrameToStep)].input
      requires inputs[1] == inputBuffer.table[Key(2, nextFrameToStep)].input
      modifies this`state, this`nextFrameToStep, this`frameHashes, inputBuffer
      ensures Valid() && nextFrameToStep == old(nextFrameToStep) + 1
      ensures inputBuffer.table == if nextFrameToStep > 4 then KeptFrom(old(inputBuffer.table), nextFrameToStep - 4)
                                   else old(inputBuffer.table)
    {
      hide Agreed, HonestTable, Represents;
      StepAgrees(tick, hash, init, script, state, nextFrameToStep, frameHashes, inputBuffer.table);
      state := tick(state, Inputs(inputs[0], inputs[1]));
      frameHashes := frameHashes + [hash(state)];
      nextFrameToStep := nextFrameToStep + 1;
      if nextFrameToStep > 4 {
        KeptHonest(inputBuffer.table, nextFrameToStep - 4, script);
        inputBuffer.ClearBefore(nextFrameToStep - 4);
      }
    }
  }

  // ----- what the network carries -----

  ghost predicate HonestFlight(inFlight: seq<InFlight>, script: Script) {
    forall m :: m in inFlight ==> HonestRecords(m.packet.records, script)
  }

  // When a packet sent now may arrive.
  predicate DueAt(now: nat, fate: Fate, due: nat) {
    !fate.lost && (due == now + fate.delay || (fate.duplicated && due == now + fate.duplicateDelay))
  }

  // Some message for the peer, due at the tick, carries exactly n inputs of the player.
  ghost predicate Carried(inFlight: seq<InFlight>, toPeer: nat, playerId: nat, n: nat, due: nat) {
    exists m :: m in inFlight && m.toPeer == toPeer && m.dueTick == due && Carries(m.packet.records, playerId, n)
  }

  ghost predicate CarriesUpTo(packet: Packet, playerId: nat, most: nat) {
    exists n: nat :: n <= most && Carries(packet.records, playerId, n)
  }

  // What is due for the peer now: never more than a number of the player's inputs, and if that is
  // more than it knows, as many.
  ghost predicate Inbound(inFlight: seq<InFlight>, toPeer: nat, playerId: nat, now: nat, arrived: nat, heard: nat) {
    && (forall m :: m in inFlight && DueFor(m, now, toPeer) ==> CarriesUpTo(m.packet, playerId, arrived))
    && (arrived <= heard ||
        exists m :: m in inFlight && DueFor(m, now, toPeer) && Carries(m.packet.records, playerId, arrived))
  }

  ghost predicate AllCarry(packets: seq<Packet>, playerId: nat, arrived: nat, heard: nat) {
    && (forall p :: 0 <= p < |packets| ==> CarriesUpTo(packets[p], playerId, arrived))
    && (arrived <= heard || exists p :: 0 <= p < |packets| && Carries(packets[p].records, playerId, arrived))
  }

  lemma CarriesAll(records: seq<Record>, playerId: nat, n: nat)
    requires OwnedBelow(records, [playerId], n) && Covers(records, playerId, n)
    ensures Carries(records, playerId, n)
  {
    forall k ensures HasKey(records, k) <==> k.playerId == playerId && k.frame < n {
      if k.playerId == playerId && k.frame < n { assert HasKey(records, Key(playerId, k.frame)); }
    }
  }

  /** Build this tick's packet and send it. */
  method SendInputs<S>(
    peer: FakeLockstepPeer<S>, network: FakeLockstepNetwork, other: nat, ghost mine: nat, latest: nat, wallTick: nat,
    fate: Fate)
    requires peer.Valid() && network.Valid() && peer.ownedPlayers == [mine]
    requires HonestFlight(network.inFlight, peer.script)
    modifies peer`nextPacketSequence, peer.inputBuffer, network
    ensures peer.Valid() && network.Valid() && HonestFlight(network.inFlight, peer.script)
    ensures forall m :: m in old(network.inFlight) ==> m in network.inFlight
    ensures forall m :: m in network.inFlight && m !in old(network.inFlight) ==>
              m.toPeer == other && DueAt(wallTick, fate, m.dueTick) && Carries(m.packet.records, mine, latest + 1)
    ensures forall due: nat :: DueAt(wallTick, fate, due) ==>
              Carried(network.inFlight, other, mine, latest + 1, due)
    ensures old(peer.inputBuffer.table).Keys <= peer.inputBuffer.table.Keys
    ensures Holds(peer.inputBuffer.table, mine, 0, latest + 1)
    ensures forall k :: k in peer.inputBuffer.table ==>
              k in old(peer.inputBuffer.table) || (k.playerId == mine && k.frame <= latest)
  {
    var packet := peer.BuildInputPacket(latest);
    assert mine in peer.ownedPlayers;
    CarriesAll(packet.records, mine, latest + 1);
    hide HonestRecords, Covers, Holds, Represents, Agreed, HonestTable, SentInOrder, Carries, OwnedBelow;
    ghost var before := network.inFlight;
    ghost var message := InFlight(peer.peerId, other, packet, wallTick + fate.delay, network.nextInsertionOrder);
    network.Send(wallTick, peer.peerId, other, packet, fate);
    SentArrives(before, network.inFlight, message, fate, wallTick);
    SentCarries(before, network.inFlight, message, fate, wallTick, mine, latest + 1);
  }

  // The copy of a duplicated message.
  function Copy(message: InFlight, fate: Fate, now: nat): InFlight {
    InFlight(message.fromPeer, message.toPeer, message.packet, now + fate.duplicateDelay, message.insertionOrder + 1)
  }

  lemma SentArrives(before: seq<InFlight>, sent: seq<InFlight>, message: InFlight, fate: Fate, now: nat)
    requires fate.lost ==> sent == before
    requires !fate.lost ==>
               sent == before + [message] + if fate.duplicated then [Copy(message, fate, now)] else []
    ensures forall m :: m in before ==> m in sent
    ensures forall m :: m in sent && m !in before ==>
              !fate.lost && (m == message || (fate.duplicated && m == Copy(message, fate, now)))
    ensures !fate.lost ==> message in sent && (fate.duplicated ==> Copy(message, fate, now) in sent)
  {
  }

  lemma SentCarries(
    before: seq<InFlight>, sent: seq<InFlight>, message: InFlight, fate: Fate, now: nat, playerId: nat, n: nat)
    requires forall m :: m in sent && m !in before ==>
               !fate.lost && (m == message || (fate.duplicated && m == Copy(message, fate, now)))
    requires !fate.lost ==> message in sent && (fate.duplicated ==> Copy(message, fate, now) in sent)
    requires message.dueTick == now + fate.delay && Carries(message.packet.records, playerId, n)
    ensures forall m :: m in sent && m !in before ==>
              m.toPeer == message.toPeer && DueAt(now, fate, m.dueTick) && Carries(m.packet.records, playerId, n)
    ensures forall due: nat :: DueAt(now, fate, due) ==> Carried(sent, message.toPeer, playerId, n, due)
  {
    hide Carries;
  }

  // Everything that is due for the peer, and nothing else.
  ghost predicate AreDue(packets: seq<Packet>, inFlight: seq<InFlight>, now: nat, peerId: nat) {
    && (forall p :: 0 <= p < |packets| ==> IsDue(packets[p], inFlight, now, peerId))
    && (forall m :: m in inFlight && DueFor(m, now, peerId) ==> m.packet in packets)
  }

  ghost predicate IsDue(packet: Packet, inFlight: seq<InFlight>, now: nat, peerId: nat) {
    exists m :: m in inFlight && DueFor(m, now, peerId) && m.packet == packet
  }

  /** Take everything that has arrived for the peer; the other peer's messages stay. */
  method TakeArrivals(network: FakeLockstepNetwork, peerId: nat, wallTick: nat, ghost script: Script)
    returns (packets: seq<Packet>)
    requires network.Valid() && HonestFlight(network.inFlight, script)
    modifies network
    ensures network.Valid() && HonestFlight(network.inFlight, script)
    ensures forall m :: m in network.inFlight <==> m in old(network.inFlight) && !DueFor(m, wallTick, peerId)
    ensures forall p :: 0 <= p < |packets| ==> HonestRecords(packets[p].records, script)
    ensures AreDue(packets, old(network.inFlight), wallTick, peerId)
  {
    hide HonestRecords, SentInOrder;
    ghost var sent := network.inFlight;
    ghost var due := SortedForDelivery(Picked(sent, wallTick, peerId, true));
    DeliverySorts(Picked(sent, wallTick, peerId, true));
    packets := network.ReceiveForPeer(wallTick, peerId);
    forall p | 0 <= p < |packets|
      ensures HonestRecords(packets[p].records, script)
      ensures IsDue(packets[p], sent, wallTick, peerId)
    {
      assert due[p] in sent && DueFor(due[p], wallTick, peerId) && due[p].packet == packets[p];
    }
    forall m | m in sent && DueFor(m, wallTick, peerId) ensures m.packet in packets {
      assert m in due;
      var p :| 0 <= p < |due| && due[p] == m;
      assert packets[p] == m.packet;
    }
  }

  lemma ArrivalsCarry(
    inFlight: seq<InFlight>, packets: seq<Packet>, peerId: nat, playerId: nat, now: nat, arrived: nat, heard: nat)
    requires Inbound(inFlight, peerId, playerId, now, arrived, heard)
    requires AreDue(packets, inFlight, now, peerId)
    ensures AllCarry(packets, playerId, arrived, heard)
  {
    hide Carries, CarriesUpTo;
    forall p | 0 <= p < |packets| ensures CarriesUpTo(packets[p], playerId, arrived) {
      assert IsDue(packets[p], inFlight, now, peerId);
      var m :| m in inFlight && DueFor(m, now, peerId) && m.packet == packets[p];
    }
    if arrived > heard {
      var m :| m in inFlight && DueFor(m, now, peerId) && Carries(m.packet.records, playerId, arrived);
      assert m.packet in packets;
      var p :| 0 <= p < |packets| && packets[p] == m.packet;
      assert Carries(packets[p].records, playerId, arrived);
    }
  }

  /** Store what arrived and step what is ready: as far as the inputs of both players go, and no further. */
  method Absorb<S>(
    peer: FakeLockstepPeer<S>, packets: seq<Packet>, totalFrames: nat, ghost mine: nat, ghost theirs: nat,
    ghost own: nat, ghost heard: nat, ghost arrived: nat)
    requires peer.Valid() && forall p :: 0 <= p < |packets| ==> HonestRecords(packets[p].records, peer.script)
    requires (mine, theirs) in {(1, 2), (2, 1)} && AllCarry(packets, theirs, arrived, heard)
    requires Knows(peer.inputBuffer.table, peer.nextFrameToStep, mine, own)
    requires Knows(peer.inputBuffer.table, peer.nextFrameToStep, theirs, heard)
    requires peer.nextFrameToStep <= Least(totalFrames, Least(own, heard))
    modifies peer`state, peer`nextFrameToStep, peer`frameHashes, peer.inputBuffer
    ensures peer.Valid()
    ensures Knows(peer.inputBuffer.table, peer.nextFrameToStep, mine, own)
    ensures Knows(peer.inputBuffer.table, peer.nextFrameToStep, theirs, Most(heard, arrived))
    ensures peer.nextFrameToStep == Least(totalFrames, Least(own, Most(heard, arrived)))
  {
    hide HonestRecords, Agreed, HonestTable, Represents, AllCarry, HasKey, Knows;
    ghost var table, next := peer.inputBuffer.table, peer.nextFrameToStep;
    peer.StorePackets(packets);
    PacketsKnown(table, peer.inputBuffer.table, next, packets, mine, theirs, own, heard, arrived);
    ghost var stored := peer.inputBuffer.table;
    peer.StepReadyFrames(totalFrames);
    KnownOn(stored, peer.inputBuffer.table, next, peer.nextFrameToStep, mine, own);
    KnownOn(stored, peer.inputBuffer.table, next, peer.nextFrameToStep, theirs, Most(heard, arrived));
    SteppedTo(stored, next, peer.nextFrameToStep, totalFrames, mine, theirs, own, Most(heard, arrived));
  }

  lemma PacketsKnown(
    table: Table, after: Table, next: nat, packets: seq<Packet>, mine: nat, theirs: nat, own: nat, heard: nat,
    arrived: nat)
    requires mine != theirs && AllCarry(packets, theirs, arrived, heard)
    requires Knows(table, next, mine, own) && Knows(table, next, theirs, heard)
    requires table.Keys <= after.Keys
    requires forall p, i :: 0 <= p < |packets| && 0 <= i < |packets[p].records| ==>
               packets[p].records[i].KeyOf() in after
    requires forall k :: k in after ==> k in table || exists p :: 0 <= p < |packets| && HasKey(packets[p].records, k)
    ensures Knows(after, next, mine, own) && Knows(after, next, theirs, Most(heard, arrived))
  {
    forall k | k in after && k !in table ensures k.playerId == theirs && k.frame < arrived {
      var p :| 0 <= p < |packets| && HasKey(packets[p].records, k);
      assert CarriesUpTo(packets[p], theirs, arrived);
      var n: nat :| n <= arrived && Carries(packets[p].records, theirs, n);
    }
    if arrived > heard {
      var p :| 0 <= p < |packets| && Carries(packets[p].records, theirs, arrived);
      forall f: nat | f < arrived ensures Key(theirs, f) in after {
        assert HasKey(packets[p].records, Key(theirs, f));
      }
    }
    hide HasKey, Carries, AllCarry;
    assert forall f: nat :: Key(theirs, f) in table ==> Key(theirs, f) in after.Keys;
    assert forall f: nat :: Key(mine, f) in table ==> Key(mine, f) in after.Keys;
  }

  lemma KnownOn(table: Table, after: Table, next: nat, to: nat, playerId: nat, n: nat)
    requires Knows(table, next, playerId, n) && next <= to && after.Keys <= table.Keys
    requires forall k :: k in table && k.frame >= to ==> k in after
    ensures Knows(after, to, playerId, n)
  {
    assert forall k :: k in after ==> k in table.Keys;
  }

  lemma SteppedTo(
    table: Table, next: nat, to: nat, total: nat, mine: nat, theirs: nat, own: nat, heard: nat)
    requires (mine, theirs) in {(1, 2), (2, 1)} && Knows(table, next, mine, own) && Knows(table, next, theirs, heard)
    requires next <= to && next <= Least(total, Least(own, heard)) && (to > total ==> to == next)
    requires forall f :: next <= f < to ==> Key(1, f) in table && Key(2, f) in table
    requires to < total ==> Key(1, to) !in table || Key(2, to) !in table
    ensures to == Least(total, Least(own, heard))
  {
    if to > next { assert Key(1, to - 1) in table && Key(2, to - 1) in table; }
  }

  // What was due for the peer is gone, the rest is there, and nothing is new but the message that
  // carries n of its inputs, where it is due.
  ghost predicate Exchanged(
    start: seq<InFlight>, rest: seq<InFlight>, peerId: nat, other: nat, mine: nat, n: nat, now: nat, fate: Fate)
  {
    && (forall due: nat :: DueAt(now, fate, due) ==> Carried(rest, other, mine, n, due))
    && (forall m :: m in start && !DueFor(m, now, peerId) ==> m in rest)
    && (forall m :: m in rest && m in start ==> !DueFor(m, now, peerId))
    && (forall m :: m in rest && m !in start ==>
          m.toPeer == other && DueAt(now, fate, m.dueTick) && Carries(m.packet.records, mine, n))
  }

  /** One peer's turn in a tick: send, take what has arrived, step what is ready. */
  method TakeTurn<S>(
    peer: FakeLockstepPeer<S>, network: FakeLockstepNetwork, other: nat, ghost mine: nat, ghost theirs: nat,
    latest: nat, wallTick: nat, fate: Fate, totalFrames: nat, ghost own: nat, ghost heard: nat, ghost arrived: nat)
    requires peer.Valid() && network.Valid() && HonestFlight(network.inFlight, peer.script)
    requires other != peer.peerId && peer.ownedPlayers == [mine] && (mine, theirs) in {(1, 2), (2, 1)}
    requires Knows(peer.inputBuffer.table, peer.nextFrameToStep, mine, own)
    requires Knows(peer.inputBuffer.table, peer.nextFrameToStep, theirs, heard)
    requires peer.nextFrameToStep == Least(totalFrames, Least(own, heard))
    requires Inbound(network.inFlight, peer.peerId, theirs, wallTick, arrived, heard)
    modifies peer, peer.inputBuffer, network
    ensures peer.Valid() && network.Valid() && HonestFlight(network.inFlight, peer.script)
    // It has all its inputs so far and what has arrived, and is as far as both go.
    ensures Knows(peer.inputBuffer.table, peer.nextFrameToStep, mine, Most(own, latest + 1))
    ensures Knows(peer.inputBuffer.table, peer.nextFrameToStep, theirs, Most(heard, arrived))
    ensures peer.nextFrameToStep == Least(totalFrames, Least(Most(own, latest + 1), Most(heard, arrived)))
    // Its inputs so far are on their way to the other, and only what was due for it is gone.
    ensures Exchanged(
              old(network.inFlight), network.inFlight, peer.peerId, other, mine, latest + 1, wallTick, fate)
  {
    hide HonestFlight, HonestTable, Agreed, HonestRecords, Represents, SentInOrder;
    hide Carries, DueAt, AllCarry, AreDue;
    ghost var start, table := network.inFlight, peer.inputBuffer.table;
    SendInputs(peer, network, other, mine, latest, wallTick, fate);
    ghost var sent := network.inFlight;
    SentKnown(table, peer.inputBuffer.table, peer.nextFrameToStep, mine, theirs, own, heard, latest);
    InboundStays(start, sent, peer.peerId, other, theirs, wallTick, arrived, heard);
    var packets := TakeArrivals(network, peer.peerId, wallTick, peer.script);
    ArrivalsCarry(sent, packets, peer.peerId, theirs, wallTick, arrived, heard);
    CarriedStays(sent, network.inFlight, peer.peerId, other, mine, latest + 1, wallTick);
    assert Exchanged(start, network.inFlight, peer.peerId, other, mine, latest + 1, wallTick, fate);
    hide Knows, Inbound, Carried, Exchanged;
    Absorb(peer, packets, totalFrames, mine, theirs, Most(own, latest + 1), heard, arrived);
  }

  lemma SentKnown(
    table: Table, after: Table, next: nat, mine: nat, theirs: nat, own: nat, heard: nat, latest: nat)
    requires mine != theirs && Knows(table, next, mine, own) && Knows(table, next, theirs, heard)
    requires table.Keys <= after.Keys && Holds(after, mine, 0, latest + 1)
    requires forall k :: k in after ==> k in table || (k.playerId == mine && k.frame <= latest)
    ensures Knows(after, next, mine, Most(own, latest + 1)) && Knows(after, next, theirs, heard)
  {
    assert forall k :: k in table ==> k in after.Keys;
  }

  lemma InboundStays(
    start: seq<InFlight>, sent: seq<InFlight>, peerId: nat, other: nat, playerId: nat, now: nat, arrived: nat,
    heard: nat)
    requires other != peerId && Inbound(start, peerId, playerId, now, arrived, heard)
    requires forall m :: m in start ==> m in sent
    requires forall m :: m in sent && m !in start ==> m.toPeer == other
    ensures Inbound(sent, peerId, playerId, now, arrived, heard)
  {
    hide Carries;
  }

  lemma CarriedStays(
    sent: seq<InFlight>, rest: seq<InFlight>, peerId: nat, other: nat, playerId: nat, n: nat, now: nat)
    requires other != peerId && forall m :: m in rest <==> m in sent && !DueFor(m, now, peerId)
    ensures forall due: nat :: Carried(sent, other, playerId, n, due) ==> Carried(rest, other, playerId, n, due)
  {
    hide Carries;
  }

  // ----- the whole case -----

  // When a peer gets its turn; a hitch silences it for the first ticks of every period.
  datatype RunRate = RunRate(pumpEvery: nat, hitchEvery: nat, hitchLength: nat)

  predicate ShouldPump(rate: RunRate, wallTick: nat) {
    && !(rate.pumpEvery > 1 && wallTick % rate.pumpEvery != 0)
    && !(rate.hitchEvery > 0 && rate.hitchLength > 0 && wallTick % rate.hitchEvery < rate.hitchLength)
  }

  function LatestInput(wallTick: nat, inputDelay: nat, totalFrames: nat): nat
    requires totalFrames > 0
  {
    if wallTick + inputDelay < totalFrames - 1 then wallTick + inputDelay else totalFrames - 1
  }

  datatype CaseResult = Finished | HashMismatch | TimedOut

  datatype Case = Case(
    rate0: RunRate, rate1: RunRate, fates0: nat -> Fate, fates1: nat -> Fate,
    inputDelay: nat, totalFrames: nat, maxWallTicks: nat)

  // ----- how far a peer can be -----

  // A peer that sends: its turns and what becomes of its packets.
  datatype Sender = Sender(rate: RunRate, fates: nat -> Fate)

  // The inputs a peer has at a tick.
  function InputsAt(c: Case, t: nat): nat
    requires c.totalFrames > 0
  {
    LatestInput(t, c.inputDelay, c.totalFrames) + 1
  }

  // The inputs of its own that a peer has recorded in its turns before tick n.
  function Own(c: Case, rate: RunRate, n: nat): nat
    requires c.totalFrames > 0
  {
    if n == 0 then 0
    else Most(Own(c, rate, n - 1), if ShouldPump(rate, n - 1) then InputsAt(c, n - 1) else 0)
  }

  // Sent at tick t, due by now.
  predicate ArrivesBy(s: Sender, t: nat, now: nat) {
    && ShouldPump(s.rate, t) && !s.fates(t).lost
    && (t + s.fates(t).delay <= now || (s.fates(t).duplicated && t + s.fates(t).duplicateDelay <= now))
  }

  // The inputs in the packets sent before tick n that are due by now.
  function Arrived(c: Case, s: Sender, n: nat, now: nat): nat
    requires c.totalFrames > 0
  {
    if n == 0 then 0
    else Most(Arrived(c, s, n - 1, now), if ArrivesBy(s, n - 1, now) then InputsAt(c, n - 1) else 0)
  }

  // The inputs of the other that a peer has received in its turns before tick n. In a tick peer 0
  // has its turn first: what the other sends in tick t it can have in tick t or, with a lag, after it.
  function Heard(c: Case, s: Sender, rate: RunRate, lag: nat, n: nat): nat
    requires c.totalFrames > 0 && lag <= 1
  {
    if n == 0 then 0
    else
      Most(Heard(c, s, rate, lag, n - 1), if ShouldPump(rate, n - 1) then Arrived(c, s, n - lag, n - 1) else 0)
  }

  // The frames each peer has stepped after n of its turns.
  function Frames0(c: Case, n: nat): nat
    requires c.totalFrames > 0
  {
    Least(c.totalFrames, Least(Own(c, c.rate0, n), Heard(c, Sender(c.rate1, c.fates1), c.rate0, 1, n)))
  }

  function Frames1(c: Case, n: nat): nat
    requires c.totalFrames > 0
  {
    Least(c.totalFrames, Least(Own(c, c.rate1, n), Heard(c, Sender(c.rate0, c.fates0), c.rate1, 0, n)))
  }

  lemma TurnNext(c: Case, rate: RunRate, s: Sender, lag: nat, t: nat)
    requires c.totalFrames > 0 && lag <= 1
    ensures InputsAt(c, t) == LatestInput(t, c.inputDelay, c.totalFrames) + 1
    ensures Own(c, rate, t + 1) ==
            if ShouldPump(rate, t) then Most(Own(c, rate, t), InputsAt(c, t)) else Own(c, rate, t)
    ensures Heard(c, s, rate, lag, t + 1) ==
            if ShouldPump(rate, t) then Most(Heard(c, s, rate, lag, t), Arrived(c, s, t + 1 - lag, t))
            else Heard(c, s, rate, lag, t)
  {
    hide ShouldPump, Arrived, LatestInput;
  }

  lemma {:induction false} ArrivedIs(c: Case, s: Sender, n: nat, now: nat, t: nat)
    requires c.totalFrames > 0 && t < n && ArrivesBy(s, t, now)
    ensures Arrived(c, s, n, now) >= InputsAt(c, t)
  {
    if t < n - 1 { ArrivedIs(c, s, n - 1, now, t); }
  }

  lemma {:induction false} ArrivedFrom(c: Case, s: Sender, n: nat, now: nat) returns (t: nat)
    requires c.totalFrames > 0 && Arrived(c, s, n, now) > 0
    ensures t < n && ArrivesBy(s, t, now) && Arrived(c, s, n, now) == InputsAt(c, t)
  {
    if ArrivesBy(s, n - 1, now) && InputsAt(c, n - 1) >= Arrived(c, s, n - 1, now) {
      t := n - 1;
    } else {
      t := ArrivedFrom(c, s, n - 1, now);
    }
  }

  // The messages for a peer: all were sent by the other, and none that brings more than it has is gone.
  ghost predicate Flight(inFlight: seq<InFlight>, toPeer: nat, playerId: nat, c: Case, s: Sender, n: nat, heard: nat)
    requires c.totalFrames > 0
  {
    && (forall m :: m in inFlight && m.toPeer == toPeer ==> WasSent(m, playerId, c, s, n))
    && forall t: nat, due: nat :: t < n && ShouldPump(s.rate, t) && DueAt(t, s.fates(t), due) ==>
         InputsAt(c, t) <= heard || Carried(inFlight, toPeer, playerId, InputsAt(c, t), due)
  }

  ghost predicate WasSent(m: InFlight, playerId: nat, c: Case, s: Sender, n: nat)
    requires c.totalFrames > 0
  {
    exists t: nat :: t < n && ShouldPump(s.rate, t) && DueAt(t, s.fates(t), m.dueTick) &&
                     Carries(m.packet.records, playerId, InputsAt(c, t))
  }

  lemma FlightIsInbound(
    inFlight: seq<InFlight>, toPeer: nat, playerId: nat, c: Case, s: Sender, n: nat, heard: nat, now: nat)
    requires c.totalFrames > 0 && Flight(inFlight, toPeer, playerId, c, s, n, heard)
    ensures Inbound(inFlight, toPeer, playerId, now, Arrived(c, s, n, now), heard)
  {
    hide Carries, ShouldPump;
    var arrived := Arrived(c, s, n, now);
    forall m | m in inFlight && DueFor(m, now, toPeer)
      ensures CarriesUpTo(m.packet, playerId, arrived)
    {
      assert WasSent(m, playerId, c, s, n);
      var t: nat :| t < n && ShouldPump(s.rate, t) && DueAt(t, s.fates(t), m.dueTick) &&
                    Carries(m.packet.records, playerId, InputsAt(c, t));
      ArrivedIs(c, s, n, now, t);
    }
    if arrived > heard {
      var t := ArrivedFrom(c, s, n, now);
      var fate := s.fates(t);
      var due := if t + fate.delay <= now then t + fate.delay else t + fate.duplicateDelay;
      assert DueAt(t, fate, due);
      assert Carried(inFlight, toPeer, playerId, arrived, due);
    }
  }

  // The receiver's turn takes what is due.
  lemma FlightTaken(
    start: seq<InFlight>, rest: seq<InFlight>, toPeer: nat, playerId: nat, c: Case, s: Sender, n: nat, heard: nat,
    now: nat, other: nat, mine: nat, count: nat, fate: Fate)
    requires c.totalFrames > 0 && Flight(start, toPeer, playerId, c, s, n, heard) && other != toPeer
    requires Exchanged(start, rest, toPeer, other, mine, count, now, fate)
    ensures Flight(rest, toPeer, playerId, c, s, n, Most(heard, Arrived(c, s, n, now)))
  {
    hide Carries, ShouldPump, InputsAt;
    forall t: nat, due: nat | t < n && ShouldPump(s.rate, t) && DueAt(t, s.fates(t), due)
      ensures InputsAt(c, t) <= Most(heard, Arrived(c, s, n, now)) ||
              Carried(rest, toPeer, playerId, InputsAt(c, t), due)
    {
      if due <= now { ArrivedIs(c, s, n, now, t); }
    }
    hide WasSent;
  }

  // The sender's turn adds what it sends.
  lemma FlightSent(
    start: seq<InFlight>, rest: seq<InFlight>, toPeer: nat, playerId: nat, c: Case, s: Sender, n: nat, heard: nat,
    peerId: nat)
    requires c.totalFrames > 0 && Flight(start, toPeer, playerId, c, s, n, heard) && ShouldPump(s.rate, n)
    requires Exchanged(start, rest, peerId, toPeer, playerId, InputsAt(c, n), n, s.fates(n)) && peerId != toPeer
    ensures Flight(rest, toPeer, playerId, c, s, n + 1, heard)
  {
    hide Carries, ShouldPump, InputsAt;
    forall m | m in rest && m.toPeer == toPeer ensures WasSent(m, playerId, c, s, n + 1) {
      if m in start { assert WasSent(m, playerId, c, s, n); }
    }
    assert forall m :: m in start && m.toPeer == toPeer ==> m in rest;
    assert forall due: nat :: DueAt(n, s.fates(n), due) ==> Carried(rest, toPeer, playerId, InputsAt(c, n), due);
    hide DueAt, Exchanged;
    forall t: nat, due: nat | t < n + 1 && ShouldPump(s.rate, t) && DueAt(t, s.fates(t), due)
      ensures InputsAt(c, t) <= heard || Carried(rest, toPeer, playerId, InputsAt(c, t), due)
    {
      if t < n { assert InputsAt(c, t) <= heard || Carried(start, toPeer, playerId, InputsAt(c, t), due); }
    }
  }

  // A tick without a turn of the sender.
  lemma FlightIdle(inFlight: seq<InFlight>, toPeer: nat, playerId: nat, c: Case, s: Sender, n: nat, heard: nat)
    requires c.totalFrames > 0 && Flight(inFlight, toPeer, playerId, c, s, n, heard) && !ShouldPump(s.rate, n)
    ensures Flight(inFlight, toPeer, playerId, c, s, n + 1, heard)
  {
    hide Carries, InputsAt;
    forall m | m in inFlight && m.toPeer == toPeer ensures WasSent(m, playerId, c, s, n + 1) {
      assert WasSent(m, playerId, c, s, n);
    }
    hide ShouldPump, DueAt, WasSent, Carried;
  }

  // Both peers have stepped every frame.
  predicate Complete(c: Case, n: nat)
    requires c.totalFrames > 0
  {
    Frames0(c, n) == c.totalFrames && Frames1(c, n) == c.totalFrames
  }

  // At the tick the peer sends its complete inputs and the network does not lose them.
  ghost predicate SendsAll(c: Case, rate: RunRate, fates: nat -> Fate, t: nat)
    requires c.totalFrames > 0
  {
    ShouldPump(rate, t) && LatestInput(t, c.inputDelay, c.totalFrames) == c.totalFrames - 1 && !fates(t).lost
  }

  // What the peer sends at t0 has arrived when the other takes its turn at t1.
  ghost predicate Reaches(c: Case, sender: RunRate, fates: nat -> Fate, receiver: RunRate, t0: nat, t1: nat)
    requires c.totalFrames > 0
  {
    SendsAll(c, sender, fates, t0) && t0 + fates(t0).delay <= t1 && ShouldPump(receiver, t1)
  }

  lemma {:induction false} OwnAll(c: Case, rate: RunRate, n: nat, t: nat)
    requires c.totalFrames > 0 && t < n && ShouldPump(rate, t) && InputsAt(c, t) == c.totalFrames
    ensures Own(c, rate, n) >= c.totalFrames
  {
    if t < n - 1 { OwnAll(c, rate, n - 1, t); }
  }

  lemma {:induction false} HeardAll(c: Case, s: Sender, rate: RunRate, lag: nat, n: nat, t0: nat, t1: nat)
    requires c.totalFrames > 0 && lag <= 1 && t0 + lag <= t1 < n && Reaches(c, s.rate, s.fates, rate, t0, t1)
    ensures Heard(c, s, rate, lag, n) >= c.totalFrames
  {
    if t1 < n - 1 {
      HeardAll(c, s, rate, lag, n - 1, t0, t1);
    } else {
      ArrivedIs(c, s, n - lag, n - 1, t0);
    }
  }

  // The complete inputs of each get through once to a turn of the other.
  ghost predicate GetThrough(c: Case, n: nat)
    requires c.totalFrames > 0
  {
    && (exists t0: nat, t1: nat :: t0 <= t1 < n && Reaches(c, c.rate0, c.fates0, c.rate1, t0, t1))
    && (exists t0: nat, t1: nat :: t0 < t1 < n && Reaches(c, c.rate1, c.fates1, c.rate0, t0, t1))
  }

  /** Then both have finished. */
  lemma ReachingCompletes(c: Case, n: nat)
    requires c.totalFrames > 0 && GetThrough(c, n)
    ensures Complete(c, n)
  {
    hide Own, Heard;
    var s0: nat, r1: nat :| s0 <= r1 < n && Reaches(c, c.rate0, c.fates0, c.rate1, s0, r1);
    var s1: nat, r0: nat :| s1 < r0 < n && Reaches(c, c.rate1, c.fates1, c.rate0, s1, r0);
    OwnAll(c, c.rate0, n, s0);
    OwnAll(c, c.rate1, n, s1);
    HeardAll(c, Sender(c.rate0, c.fates0), c.rate1, 0, n, s0, r1);
    HeardAll(c, Sender(c.rate1, c.fates1), c.rate0, 1, n, s1, r0);
  }

  lemma CompleteStays(c: Case, n: nat, m: nat)
    requires c.totalFrames > 0 && n <= m && Complete(c, n)
    ensures Complete(c, m)
    decreases m
  {
    if n < m { CompleteStays(c, n, m - 1); }
  }

  lemma NothingYet(c: Case, script: Script)
    requires c.totalFrames > 0
    ensures HonestFlight([], script)
    ensures Own(c, c.rate0, 0) == 0 && Own(c, c.rate1, 0) == 0
    ensures Heard(c, Sender(c.rate1, c.fates1), c.rate0, 1, 0) == 0
    ensures Heard(c, Sender(c.rate0, c.fates0), c.rate1, 0, 0) == 0
    ensures Flight([], 0, 2, c, Sender(c.rate1, c.fates1), 0, 0)
    ensures Flight([], 1, 1, c, Sender(c.rate0, c.fates0), 0, 0)
    ensures forall p: nat :: Knows(map[], 0, p, 0)
  {
  }

  class LockstepCase<S> {
    const c: Case
    const script: Script
    const peer0: FakeLockstepPeer<S>
    const peer1: FakeLockstepPeer<S>
    const network: FakeLockstepNetwork
    var comparedHashes: nat

    constructor (tick: (S, Inputs) -> S, hash: S -> nat, init: S, script: Script, c: Case)
      requires c.totalFrames == |script| > 0
      ensures Valid() && Standing(0, 0) && fresh(Parts())
      ensures this.c == c && this.script == script
    {
      hide Represents, HonestTable, HonestFlight, Agreed, SentInOrder, Knows, Flight, Own, Heard;
      this.c, this.script := c, script;
      peer0 := new FakeLockstepPeer(tick, hash, init, script, 0, [1]);
      peer1 := new FakeLockstepPeer(tick, hash, init, script, 1, [2]);
      network := new FakeLockstepNetwork();
      comparedHashes := 0;
      new;
      NothingYet(c, script);
    }

    ghost function Parts(): set<object> {
      {peer0, peer1, peer0.inputBuffer, peer1.inputBuffer, network}
    }

    ghost predicate Valid()
      reads this, Parts()
    {
      && peer0.Valid() && peer1.Valid() && network.Valid()
      && HonestFlight(network.inFlight, script)
      && peer0.inputBuffer != peer1.inputBuffer && peer0 != peer1
      && peer0.tick == peer1.tick && peer0.hash == peer1.hash && peer0.init == peer1.init
      && peer0.script == peer1.script == script && peer0.peerId == 0 && peer1.peerId == 1
      && peer0.ownedPlayers == [1] && peer1.ownedPlayers == [2]
      && c.totalFrames == |script| && c.totalFrames > 0
      && comparedHashes <= peer0.nextFrameToStep && comparedHashes <= peer1.nextFrameToStep
    }

    // After n turns of peer 0 and m of peer 1 each has recorded its own inputs so far and what it
    // has heard, is as far as both go, and what it has not heard yet is on its way.
    ghost predicate Standing0(n: nat, m: nat)
      requires c.totalFrames > 0
      reads peer0, peer0.inputBuffer, network
    {
      var s, heard := Sender(c.rate1, c.fates1), Heard(c, Sender(c.rate1, c.fates1), c.rate0, 1, n);
      && Knows(peer0.inputBuffer.table, peer0.nextFrameToStep, 1, Own(c, c.rate0, n))
      && Knows(peer0.inputBuffer.table, peer0.nextFrameToStep, 2, heard)
      && peer0.nextFrameToStep == Frames0(c, n)
      && Flight(network.inFlight, 0, 2, c, s, m, heard)
    }

    ghost predicate Standing1(n: nat, m: nat)
      requires c.totalFrames > 0
      reads peer1, peer1.inputBuffer, network
    {
      var s, heard := Sender(c.rate0, c.fates0), Heard(c, Sender(c.rate0, c.fates0), c.rate1, 0, m);
      && Knows(peer1.inputBuffer.table, peer1.nextFrameToStep, 2, Own(c, c.rate1, m))
      && Knows(peer1.inputBuffer.table, peer1.nextFrameToStep, 1, heard)
      && peer1.nextFrameToStep == Frames1(c, m)
      && Flight(network.inFlight, 1, 1, c, s, n, heard)
    }

    ghost predicate Standing(n: nat, m: nat)
      requires c.totalFrames > 0
      reads this, Parts()
    {
      Standing0(n, m) && Standing1(n, m)
    }

    method Pump0(wallTick: nat)
      requires Valid() && Standing(wallTick, wallTick)
      modifies peer0, peer0.inputBuffer, network
      ensures Valid() && Standing(wallTick + 1, wallTick)
    {
      hide HonestFlight, HonestTable, Agreed, Represents, SentInOrder, Knows, Flight, Inbound, DueAt, InputsAt;
      hide Arrived, Carried, Carries, LatestInput, ShouldPump, Own, Heard, Exchanged;
      ghost var other := Sender(c.rate1, c.fates1);
      TurnNext(c, c.rate0, other, 1, wallTick);
      ghost var heard := Heard(c, other, c.rate0, 1, wallTick);
      ghost var arrived := Arrived(c, other, wallTick, wallTick);
      ghost var start := network.inFlight;
      if ShouldPump(c.rate0, wallTick) {
        FlightIsInbound(start, 0, 2, c, other, wallTick, heard, wallTick);
        var latest := LatestInput(wallTick, c.inputDelay, c.totalFrames);
        TakeTurn(peer0, network, 1, 1, 2, latest, wallTick, c.fates0(wallTick), c.totalFrames,
                 Own(c, c.rate0, wallTick), heard, arrived);
        FlightTaken(start, network.inFlight, 0, 2, c, other, wallTick, heard, wallTick, 1, 1, latest + 1,
                    c.fates0(wallTick));
        FlightSent(start, network.inFlight, 1, 1, c, Sender(c.rate0, c.fates0), wallTick,
                   Heard(c, Sender(c.rate0, c.fates0), c.rate1, 0, wallTick), 0);
      } else {
        FlightIdle(start, 1, 1, c, Sender(c.rate0, c.fates0), wallTick,
                   Heard(c, Sender(c.rate0, c.fates0), c.rate1, 0, wallTick));
      }
    }

    method Pump1(wallTick: nat)
      requires Valid() && Standing(wallTick + 1, wallTick)
      modifies peer1, peer1.inputBuffer, network
      ensures Valid() && Standing(wallTick + 1, wallTick + 1)
    {
      hide HonestFlight, HonestTable, Agreed, Represents, SentInOrder, Knows, Flight, Inbound, DueAt, InputsAt;
      hide Arrived, Carried, Carries, LatestInput, ShouldPump, Own, Heard, Exchanged;
      ghost var other := Sender(c.rate0, c.fates0);
      TurnNext(c, c.rate1, other, 0, wallTick);
      ghost var heard := Heard(c, other, c.rate1, 0, wallTick);
      ghost var arrived := Arrived(c, other, wallTick + 1, wallTick);
      ghost var start := network.inFlight;
      if ShouldPump(c.rate1, wallTick) {
        FlightIsInbound(start, 1, 1, c, other, wallTick + 1, heard, wallTick);
        var latest := LatestInput(wallTick, c.inputDelay, c.totalFrames);
        TakeTurn(peer1, network, 0, 2, 1, latest, wallTick, c.fates1(wallTick), c.totalFrames,
                 Own(c, c.rate1, wallTick), heard, arrived);
        FlightTaken(start, network.inFlight, 1, 1, c, other, wallTick + 1, heard, wallTick, 0, 2, latest + 1,
                    c.fates1(wallTick));
        FlightSent(start, network.inFlight, 0, 2, c, Sender(c.rate1, c.fates1), wallTick,
                   Heard(c, Sender(c.rate1, c.fates1), c.rate0, 1, wallTick + 1), 1);
      } else {
        FlightIdle(start, 0, 2, c, Sender(c.rate1, c.fates1), wallTick,
                   Heard(c, Sender(c.rate1, c.fates1), c.rate0, 1, wallTick + 1));
      }
    }

    // Compare the hashes both peers have by now.
    method CompareHashes() returns (same: bool)
      requires Valid()
      modifies this`comparedHashes
      ensures Valid() && same
    {
      while comparedHashes < |peer0.frameHashes| && comparedHashes < |peer1.frameHashes|
        invariant Valid()
        decreases |peer0.frameHashes| - comparedHashes
      {
        if peer0.frameHashes[comparedHashes] != peer1.frameHashes[comparedHashes] {
          return false;
        }
        comparedHashes := comparedHashes + 1;
      }
      same := true;
    }

    /**
     Whatever the network does, the peers never record different hashes for a frame. The case
     ends with the first tick after which each peer has the inputs of every frame, its own and
     the other's; until then each peer is exactly as far as the inputs it has.
     */
    method RunCase() returns (result: CaseResult, wallTicks: nat)
      requires Valid() && Standing(0, 0)
      modifies this, Parts()
      ensures Valid() && result != HashMismatch
      ensures peer0.nextFrameToStep == Frames0(c, wallTicks) && peer1.nextFrameToStep == Frames1(c, wallTicks)
      ensures result == Finished <==> Complete(c, wallTicks)
      ensures result == Finished <==> Complete(c, c.maxWallTicks)
      ensures wallTicks <= c.maxWallTicks && (result == TimedOut ==> wallTicks == c.maxWallTicks)
      ensures forall n: nat :: n < wallTicks ==> !Complete(c, n)
      ensures result == Finished ==> peer0.frameHashes == peer1.frameHashes && |peer0.frameHashes| == |script|
      ensures GetThrough(c, c.maxWallTicks) ==> result == Finished
    {
      hide HonestFlight, HonestTable, Represents, SentInOrder, Knows, Flight, Own, Heard, ShouldPump, GetThrough;
      NothingYet(c, script);
      for wallTick := 0 to c.maxWallTicks
        invariant Valid() && Standing(wallTick, wallTick)
        invariant forall n: nat :: n <= wallTick ==> !Complete(c, n)
      {
        Pump0(wallTick);
        Pump1(wallTick);
        var same := CompareHashes();
        wallTicks := wallTick + 1;
        if !same {
          result := HashMismatch;
          return;
        }
        if peer0.nextFrameToStep >= c.totalFrames && peer1.nextFrameToStep >= c.totalFrames {
          CompleteStays(c, wallTicks, c.maxWallTicks);
          result := Finished;
          return;
        }
      }
      result, wallTicks := TimedOut, c.maxWallTicks;
      if GetThrough(c, c.maxWallTicks) { ReachingCompletes(c, c.maxWallTicks); }
    }
  }
}
