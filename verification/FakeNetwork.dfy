/** The test network: it loses, duplicates, delays and reorders whole input packets. */
module FakeNetwork {
  import opened InputBuffer
  import opened Sorting

  datatype Packet = Packet(senderPeerId: nat, sequence: nat, records: seq<Record>)

  datatype InFlight = InFlight(fromPeer: nat, toPeer: nat, packet: Packet, dueTick: nat, insertionOrder: nat)

  // What the random generator decides about one send.
  datatype Fate = Fate(lost: bool, delay: nat, duplicated: bool, duplicateDelay: nat)

  predicate DueFor(m: InFlight, now: nat, peer: nat) {
    m.toPeer == peer && m.dueTick <= now
  }

  // The order of delivery: due tick first, then order of sending.
  const EARLIER: Relation<InFlight> :=
    (a: InFlight, b: InFlight) =>
      a.dueTick < b.dueTick || (a.dueTick == b.dueTick && a.insertionOrder < b.insertionOrder)

  function SortedForDelivery(ms: seq<InFlight>): seq<InFlight> { Sorted(EARLIER, ms) }

  /** Delivery is a sorted rearrangement of what was due. */
  lemma DeliverySorts(ms: seq<InFlight>)
    ensures InOrder(EARLIER, SortedForDelivery(ms)) && multiset(SortedForDelivery(ms)) == multiset(ms)
    ensures |SortedForDelivery(ms)| == |ms|
    ensures forall m :: m in SortedForDelivery(ms) <==> m in ms
  {
    SortSorts(EARLIER, ms);
    SortedMembers(EARLIER, ms);
  }

  /** What is delivered first was due first, or was due in the same tick and sent first. */
  lemma DeliveredInTurn(ms: seq<InFlight>, i: nat, j: nat)
    requires i < j < |SortedForDelivery(ms)|
    ensures var a, b := SortedForDelivery(ms)[i], SortedForDelivery(ms)[j];
            a.dueTick < b.dueTick || (a.dueTick == b.dueTick && a.insertionOrder <= b.insertionOrder)
  {
    DeliverySorts(ms);
    assert !EARLIER(SortedForDelivery(ms)[j], SortedForDelivery(ms)[i]);
    hide SortedForDelivery;
  }

  // The messages that are, or are not, due for the peer, in the order they were sent.
  function Picked(ms: seq<InFlight>, now: nat, peer: nat, due: bool): (r: seq<InFlight>)
    ensures forall m :: m in r <==> m in ms && DueFor(m, now, peer) == due
    ensures |r| <= |ms|
  {
    if ms == [] then []
    else
      var rest := Picked(ms[..|ms| - 1], now, peer, due);
      if DueFor(ms[|ms| - 1], now, peer) == due then rest + [ms[|ms| - 1]] else rest
  }

  lemma {:induction false} PickedPartition(ms: seq<InFlight>, now: nat, peer: nat)
    ensures multiset(Picked(ms, now, peer, true)) + multiset(Picked(ms, now, peer, false)) == multiset(ms)
    ensures |Picked(ms, now, peer, true)| + |Picked(ms, now, peer, false)| == |ms|
  {
    if ms != [] {
      PickedPartition(ms[..|ms| - 1], now, peer);
      assert ms == ms[..|ms| - 1] + [ms[|ms| - 1]];
    }
  }

  ghost predicate SentInOrder(ms: seq<InFlight>, bound: nat) {
    && (forall i :: 0 <= i < |ms| ==> ms[i].insertionOrder < bound)
    && (forall i, j :: 0 <= i < j < |ms| ==> ms[i].insertionOrder < ms[j].insertionOrder)
  }

  lemma {:induction false} PickedInOrder(ms: seq<InFlight>, now: nat, peer: nat, due: bool, bound: nat)
    requires SentInOrder(ms, bound)
    ensures SentInOrder(Picked(ms, now, peer, due), bound)
  {
    if ms != [] {
      var last := ms[|ms| - 1];
      PickedInOrder(ms[..|ms| - 1], now, peer, due, last.insertionOrder);
    }
  }

  class FakeLockstepNetwork {
    var inFlight: seq<InFlight>
    var nextInsertionOrder: nat
    var packetsSent: nat
    var packetsDropped: nat
    var packetsDuplicated: nat
    var packetsReceived: nat

    // Conservation: what was sent and not dropped is received or still in flight.
    ghost predicate Valid()
      reads this
    {
      && packetsSent + packetsDuplicated == packetsDropped + packetsReceived + |inFlight|
      && SentInOrder(inFlight, nextInsertionOrder)
    }

    constructor ()
      ensures Valid() && inFlight == [] && packetsSent == 0
    {
      inFlight, nextInsertionOrder := [], 0;
      packetsSent, packetsDropped, packetsDuplicated, packetsReceived := 0, 0, 0, 0;
    }

    method Send(now: nat, fromPeer: nat, toPeer: nat, packet: Packet, fate: Fate)
      requires Valid()
      modifies this
      ensures Valid() && packetsSent == old(packetsSent) + 1
      ensures fate.lost ==> inFlight == old(inFlight)
      ensures !fate.lost ==>
                var n := old(nextInsertionOrder);
                inFlight == old(inFlight) + [InFlight(fromPeer, toPeer, packet, now + fate.delay, n)] +
                            if fate.duplicated
                            then [InFlight(fromPeer, toPeer, packet, now + fate.duplicateDelay, n + 1)] else []
    {
      packetsSent := packetsSent + 1;
      if fate.lost {
        packetsDropped := packetsDropped + 1;
        return;
      }
      inFlight := inFlight + [InFlight(fromPeer, toPeer, packet, now + fate.delay, nextInsertionOrder)];
      nextInsertionOrder := nextInsertionOrder + 1;
      if fate.duplicated {
        packetsDuplicated := packetsDuplicated + 1;
        inFlight := inFlight + [InFlight(fromPeer, toPeer, packet, now + fate.duplicateDelay, nextInsertionOrder)];
        nextInsertionOrder := nextInsertionOrder + 1;
      }
    }

    /** Everything due for the peer leaves the network, in delivery order; nothing else does. */
    method ReceiveForPeer(now: nat, peer: nat) returns (packets: seq<Packet>)
      requires Valid()
      modifies this
      ensures Valid()
      ensures inFlight == Picked(old(inFlight), now, peer, false)
      ensures var delivered := SortedForDelivery(Picked(old(inFlight), now, peer, true));
              |packets| == |delivered| && forall i :: 0 <= i < |packets| ==> packets[i] == delivered[i].packet
    {
      hide SortedForDelivery, SentInOrder;
      PickedPartition(inFlight, now, peer);
      PickedInOrder(inFlight, now, peer, false, nextInsertionOrder);
      var delivered := SplitDue(now, peer);
      DeliverySorts(delivered);
      packets := TakePackets(SortedForDelivery(delivered));
    }

    method SplitDue(now: nat, peer: nat) returns (delivered: seq<InFlight>)
      modifies this`inFlight
      ensures inFlight == Picked(old(inFlight), now, peer, false)
      ensures delivered == Picked(old(inFlight), now, peer, true)
    {
      delivered := [];
      var kept: seq<InFlight> := [];
      for i := 0 to |inFlight|
        invariant inFlight == old(inFlight)
        invariant delivered == Picked(inFlight[..i], now, peer, true)
        invariant kept == Picked(inFlight[..i], now, peer, false)
      {
        assert inFlight[..i + 1][..i] == inFlight[..i];
        if DueFor(inFlight[i], now, peer) {
          delivered := delivered + [inFlight[i]];
        } else {
          kept := kept + [inFlight[i]];
        }
      }
      assert inFlight[..|inFlight|] == inFlight;
      inFlight := kept;
    }

    method TakePackets(delivered: seq<InFlight>) returns (packets: seq<Packet>)
      modifies this`packetsReceived
      ensures packetsReceived == old(packetsReceived) + |delivered|
      ensures |packets| == |delivered| && forall i :: 0 <= i < |packets| ==> packets[i] == delivered[i].packet
    {
      packets := [];
      for i := 0 to |delivered|
        invariant packetsReceived == old(packetsReceived) + i && |packets| == i
        invariant forall j :: 0 <= j < i ==> packets[j] == delivered[j].packet
      {
        packetsReceived := packetsReceived + 1;
        packets := packets + [delivered[i].packet];
      }
    }
  }
}
