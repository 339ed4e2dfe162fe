/**
 The pool of sound emitters: 256 slots, a first-in first-out list of free ids, and handles
 stamped with a per-slot version.
 */
module EmitterPool {
  import opened Counting
  import opened Options
  import opened Tracks
  import opened Vids

  const POOL_SIZE: nat := 256

  datatype PlaybackMode = OneShot | Looping
  datatype SourceMode = FixedWorldPos | AttachedEnt
  datatype LossPolicy = StopImmediately | FinishCurrentPlay | KeepPlayingDetached
  datatype Vec = Vec(x: real, y: real)

  const ORIGIN := Vec(0.0, 0.0)

  function Sum(a: Vec, b: Vec): Vec { Vec(a.x + b.x, a.y + b.y) }

  datatype Emitter = Emitter(
    active: bool, vid: Vid, started: bool, instance: Vid, asset: nat, volume: real,
    mode: PlaybackMode, source: SourceMode, policy: LossPolicy,
    owner: Option<Vid>, attached: Option<Vid>, position: Vec, offset: Vec)

  // The newest free id is first; the next one to issue is last.
  datatype Pool = Pool(emitters: seq<Emitter>, free: seq<nat>)

  const BLANK := Emitter(
    false, Vid(NO_ID, 0), false, NO_INSTANCE, 0, 1.0, OneShot, FixedWorldPos, FinishCurrentPlay,
    None, None, ORIGIN, ORIGIN)

  predicate Blank(e: Emitter) {
    !e.started && e.instance == NO_INSTANCE && e.owner == None && e.attached == None
  }

  // Every slot knows its id, an inactive slot holds nothing, and the free list is the inactive ids, once each.
  ghost predicate PoolValid(p: Pool) {
    && |p.emitters| == POOL_SIZE
    && (forall i :: 0 <= i < POOL_SIZE ==> p.emitters[i].vid.id == i && p.emitters[i].vid.version < WRAP)
    && (forall i :: 0 <= i < POOL_SIZE && !p.emitters[i].active ==> Blank(p.emitters[i]))
    && NoRepeats(p.free)
    && (forall id: nat :: id in p.free <==> id < POOL_SIZE && !p.emitters[id].active)
  }

  predicate Live(p: Pool, v: Vid) {
    v.id != NO_ID && v.id < |p.emitters| && p.emitters[v.id].active && p.emitters[v.id].vid.version == v.version
  }

  function Stilled(e: Emitter): Emitter { e.(started := false, instance := NO_INSTANCE) }

  function Retired(e: Emitter): Emitter { Stilled(e).(active := false, owner := None, attached := None) }

  function Issued(e: Emitter): Emitter {
    e.(active := true, vid := Vid(e.vid.id, Bump(e.vid.version)), started := false, instance := NO_INSTANCE,
       owner := None, attached := None, offset := ORIGIN, position := ORIGIN)
  }

  function NextId(p: Pool): nat
    requires p.free != []
  {
    p.free[|p.free| - 1]
  }

  function Acquired(p: Pool): Pool
    requires PoolValid(p)
  {
    if p.free == [] then p
    else
      assert NextId(p) in p.free;
      Pool(p.emitters[NextId(p) := Issued(p.emitters[NextId(p)])], p.free[..|p.free| - 1])
  }

  function Deactivated(p: Pool, id: nat): Pool
    requires id < |p.emitters|
  {
    if !p.emitters[id].active then p
    else Pool(p.emitters[id := Retired(p.emitters[id])], [id] + p.free)
  }

  function CountDown(n: nat): seq<nat> {
    seq(n, i requires 0 <= i < n => n - 1 - i)
  }

  function Cleared(p: Pool): Pool {
    Pool(seq(|p.emitters|, i requires 0 <= i < |p.emitters| => Retired(p.emitters[i])), CountDown(|p.emitters|))
  }

  // ----- every operation keeps the pool valid -----

  lemma {:induction false} AcquiredIsValid(p: Pool)
    requires PoolValid(p)
    ensures PoolValid(Acquired(p))
    ensures p.free != [] ==>
              Live(Acquired(p), Acquired(p).emitters[NextId(p)].vid) && !p.emitters[NextId(p)].active &&
              NextId(p) < POOL_SIZE
  {
    if p.free != [] {
      var q := Acquired(p);
      var rest := p.free[..|p.free| - 1];
      assert p.free == rest + [NextId(p)];
      forall id: nat ensures id in q.free <==> id < POOL_SIZE && !q.emitters[id].active {
        assert id in p.free <==> id in rest || id == NextId(p);
      }
    }
  }

  lemma DeactivatedIsValid(p: Pool, id: nat)
    requires PoolValid(p) && id < POOL_SIZE
    ensures PoolValid(Deactivated(p, id)) && !Deactivated(p, id).emitters[id].active
  {
  }

  lemma ClearedIsValid(p: Pool)
    requires PoolValid(p)
    ensures PoolValid(Cleared(p))
  {
    forall k: nat ensures k in CountDown(POOL_SIZE) <==> k < POOL_SIZE {
      assert k < POOL_SIZE ==> CountDown(POOL_SIZE)[POOL_SIZE - 1 - k] == k;
    }
  }

  // An edit of one slot that keeps its identity and activity.
  lemma EditIsValid(p: Pool, id: nat, e: Emitter)
    requires PoolValid(p) && id < POOL_SIZE && p.emitters[id].active && e.active && e.vid == p.emitters[id].vid
    ensures PoolValid(Pool(p.emitters[id := e], p.free))
  {
  }

  // ----- free and active slots add up -----

  function ActiveIds(p: Pool): set<nat> {
    set i: nat | i < |p.emitters| && p.emitters[i].active
  }

  /** Free ids plus active slots make up the pool. */
  lemma FreePlusActive(p: Pool)
    requires PoolValid(p)
    ensures |p.free| + |ActiveIds(p)| == POOL_SIZE
  {
    hide IdsBelow, SetOf, NoRepeats;
    var free, active, all := SetOf(p.free), ActiveIds(p), IdsBelow(|p.emitters|);
    assert free + active == all && free !! active;
  }

  // ----- runs -----

  datatype Op = Acquire | Release(vid: Vid) | ClearAll

  function AfterOp(p: Pool, op: Op): (q: Pool)
    requires PoolValid(p)
    ensures PoolValid(q) && |q.emitters| == POOL_SIZE
  {
    match op
    case Acquire => AcquiredIsValid(p); Acquired(p)
    case Release(v) => if Live(p, v) then DeactivatedIsValid(p, v.id); Deactivated(p, v.id) else p
    case ClearAll => ClearedIsValid(p); Cleared(p)
  }

  function RunOps(p: Pool, ops: seq<Op>): (q: Pool)
    requires PoolValid(p)
    ensures PoolValid(q) && |q.emitters| == POOL_SIZE
    decreases |ops|
  {
    if ops == [] then p else RunOps(AfterOp(p, ops[0]), ops[1..])
  }

  // The ids a run issues and gives back, in order.
  function IssuedBy(p: Pool, op: Op): seq<nat> {
    if op.Acquire? && p.free != [] then [NextId(p)] else []
  }

  function ReleasedBy(p: Pool, op: Op): seq<nat> {
    if op.Release? && Live(p, op.vid) then [op.vid.id] else []
  }

  function AllIssued(p: Pool, ops: seq<Op>): seq<nat>
    requires PoolValid(p)
    decreases |ops|
  {
    if ops == [] then [] else IssuedBy(p, ops[0]) + AllIssued(AfterOp(p, ops[0]), ops[1..])
  }

  function AllReleased(p: Pool, ops: seq<Op>): seq<nat>
    requires PoolValid(p)
    decreases |ops|
  {
    if ops == [] then [] else ReleasedBy(p, ops[0]) + AllReleased(AfterOp(p, ops[0]), ops[1..])
  }

  // The free list from the next id to issue to the newest.
  function Queue(p: Pool): seq<nat> {
    seq(|p.free|, i requires 0 <= i < |p.free| => p.free[|p.free| - 1 - i])
  }

  lemma StepIsQueue(p: Pool, op: Op)
    requires PoolValid(p) && !op.ClearAll?
    ensures IssuedBy(p, op) + Queue(AfterOp(p, op)) == Queue(p) + ReleasedBy(p, op)
  {
  }

  lemma Glue(a: seq<nat>, middle: seq<nat>, start: seq<nat>, b: seq<nat>, c: seq<nat>, end: seq<nat>, d: seq<nat>)
    requires a + middle == start + b && c + end == middle + d
    ensures (a + c) + end == start + (b + d)
  {
    assert (a + c) + end == a + (c + end) == (a + middle) + d;
  }

  /** The free list is a queue: what is issued, then what is left, is what was there, then what came back. */
  lemma {:induction false} FirstInFirstOut(p: Pool, ops: seq<Op>)
    requires PoolValid(p) && forall k :: 0 <= k < |ops| ==> !ops[k].ClearAll?
    ensures AllIssued(p, ops) + Queue(RunOps(p, ops)) == Queue(p) + AllReleased(p, ops)
    decreases |ops|
  {
    if ops != [] {
      hide AfterOp, Queue, IssuedBy, ReleasedBy, PoolValid;
      var p1, rest := AfterOp(p, ops[0]), ops[1..];
      StepIsQueue(p, ops[0]);
      FirstInFirstOut(p1, rest);
      Glue(IssuedBy(p, ops[0]), Queue(p1), Queue(p), ReleasedBy(p, ops[0]),
           AllIssued(p1, rest), Queue(RunOps(p1, rest)), AllReleased(p1, rest));
    }
  }

  /** A released id is issued again only after every id that was free before it. */
  lemma ReissuedLast(p: Pool, v: Vid, ops: seq<Op>)
    requires PoolValid(p) && Live(p, v) && forall k :: 0 <= k < |ops| ==> !ops[k].ClearAll?
    requires v.id in AllIssued(AfterOp(p, Release(v)), ops)
    ensures Queue(p) + [v.id] <= AllIssued(AfterOp(p, Release(v)), ops)
  {
    var q := AfterOp(p, Release(v));
    FirstInFirstOut(q, ops);
    StepIsQueue(p, Release(v));
    assert Queue(q) == Queue(p) + [v.id] && v.id !in Queue(p);
    hide *;
    TakenWhole(Queue(p), v.id, AllReleased(q, ops), AllIssued(q, ops), Queue(RunOps(q, ops)));
  }

  // What is taken off the front of a queue up to an id includes everything before it.
  lemma TakenWhole(queue: seq<nat>, id: nat, added: seq<nat>, taken: seq<nat>, left: seq<nat>)
    requires taken + left == (queue + [id]) + added && id in taken && id !in queue
    ensures queue + [id] <= taken
  {
    var i :| 0 <= i < |taken| && taken[i] == id;
    var all := (queue + [id]) + added;
    assert all[i] == id;
    assert forall k :: 0 <= k < |queue| ==> all[k] == queue[k];
    assert taken == all[..|taken|];
  }

  // ----- handles over runs -----

  function IssuesOf(p: Pool, ops: seq<Op>, id: nat): nat
    requires PoolValid(p)
    decreases |ops|
  {
    if ops == [] then 0
    else (if IssuedBy(p, ops[0]) == [id] then 1 else 0) + IssuesOf(AfterOp(p, ops[0]), ops[1..], id)
  }

  lemma AfterVersion(p: Pool, op: Op, id: nat)
    requires PoolValid(p) && id < POOL_SIZE
    ensures AfterOp(p, op).emitters[id].vid.version ==
            if IssuedBy(p, op) == [id] then Bump(p.emitters[id].vid.version) else p.emitters[id].vid.version
  {
  }

  lemma FirstOp(p: Pool, ops: seq<Op>, id: nat)
    requires PoolValid(p) && ops != []
    ensures RunOps(p, ops) == RunOps(AfterOp(p, ops[0]), ops[1..])
    ensures IssuesOf(p, ops, id) ==
            (if IssuedBy(p, ops[0]) == [id] then 1 else 0) + IssuesOf(AfterOp(p, ops[0]), ops[1..], id)
  {
  }

  /** A version counts the issues of its slot, modulo its width; releasing and clearing leave it alone. */
  lemma {:induction false} VersionCounts(p: Pool, ops: seq<Op>, id: nat)
    requires PoolValid(p) && id < POOL_SIZE
    ensures RunOps(p, ops).emitters[id].vid.version ==
            Advanced(p.emitters[id].vid.version, IssuesOf(p, ops, id))
    decreases |ops|
  {
    if ops == [] {
      assert p.emitters[id].vid.version < WRAP;
    } else {
      hide *;
      AfterVersion(p, ops[0], id);
      VersionCounts(AfterOp(p, ops[0]), ops[1..], id);
      FirstOp(p, ops, id);
      CountsOn(p.emitters[id].vid.version, IssuedBy(p, ops[0]) == [id], IssuesOf(AfterOp(p, ops[0]), ops[1..], id));
    }
  }

  /** A handle resolves at the end of a run exactly if its slot is active and was reissued a multiple of 2^32 times. */
  lemma StaleVid(p: Pool, v: Vid, ops: seq<Op>)
    requires PoolValid(p) && Live(p, v)
    ensures Live(RunOps(p, ops), v) <==> RunOps(p, ops).emitters[v.id].active && IssuesOf(p, ops, v.id) % WRAP == 0
  {
    VersionCounts(p, ops, v.id);
    WrapsOnlyAround(v.version, IssuesOf(p, ops, v.id));
  }

  // An inactive slot becomes active only by being issued.
  lemma {:induction false} WokenByIssue(p: Pool, ops: seq<Op>, id: nat)
    requires PoolValid(p) && id < POOL_SIZE && !p.emitters[id].active && IssuesOf(p, ops, id) == 0
    ensures !RunOps(p, ops).emitters[id].active
    decreases |ops|
  {
    if ops != [] {
      hide RunOps;
      assert !AfterOp(p, ops[0]).emitters[id].active by {
        if ops[0].Acquire? && p.free != [] { AcquiredIsValid(p); }
      }
      WokenByIssue(AfterOp(p, ops[0]), ops[1..], id);
      FirstOp(p, ops, id);
    }
  }

  /** A released handle resolves again only if its slot has been reissued 2^32 times or a multiple of that. */
  lemma ReleasedIsDead(p: Pool, v: Vid, ops: seq<Op>)
    requires PoolValid(p) && Live(p, v) && IssuesOf(AfterOp(p, Release(v)), ops, v.id) < WRAP
    ensures !Live(RunOps(AfterOp(p, Release(v)), ops), v)
  {
    var q := AfterOp(p, Release(v));
    DeactivatedIsValid(p, v.id);
    VersionCounts(q, ops, v.id);
    WrapsOnlyAround(v.version, IssuesOf(q, ops, v.id));
    if IssuesOf(q, ops, v.id) == 0 { WokenByIssue(q, ops, v.id); }
  }

  // Issue n times, giving back each handle but the last.
  function Reissues(v: Vid, n: nat): seq<Op>
    decreases n
  {
    var next := Vid(v.id, Bump(v.version));
    if n <= 1 then [Acquire] else [Acquire, Release(next)] + Reissues(next, n - 1)
  }

  lemma IssueLone(p: Pool, v: Vid)
    requires PoolValid(p) && p.free == [v.id] && v.id < POOL_SIZE && p.emitters[v.id].vid == v
    ensures var q, next := AfterOp(p, Acquire), Vid(v.id, Bump(v.version));
            && Live(q, next) && q.free == []
            && AfterOp(q, Release(next)).free == [v.id]
            && AfterOp(q, Release(next)).emitters[v.id].vid == next
  {
    AcquiredIsValid(p);
  }

  // With one id free, that slot is issued every time.
  lemma {:induction false} LoneReissued(p: Pool, v: Vid, n: nat)
    requires PoolValid(p) && p.free == [v.id] && v.id < POOL_SIZE && p.emitters[v.id].vid == v && n > 0
    ensures Live(RunOps(p, Reissues(v, n)), Vid(v.id, Advanced(v.version, n)))
    decreases n
  {
    var q, next := AfterOp(p, Acquire), Vid(v.id, Bump(v.version));
    IssueLone(p, v);
    if n == 1 {
      assert RunOps(p, [Acquire]) == q;
    } else {
      var ops := Reissues(next, n - 1);
      assert ([Acquire, Release(next)] + ops)[1..] == [Release(next)] + ops && ([Release(next)] + ops)[1..] == ops;
      hide AfterOp, PoolValid, Live;
      LoneReissued(AfterOp(q, Release(next)), next, n - 1);
      CountsOn(v.version, true, n - 1);
    }
  }

  /** So this wrap is real too: in a full pool a released handle resolves again after 2^32 reissues of its slot. */
  lemma ReleasedRevives(p: Pool, v: Vid)
    requires PoolValid(p) && p.free == [] && Live(p, v)
    ensures Live(RunOps(p, [Release(v)] + Reissues(v, WRAP)), v)
  {
    hide Reissues, RunOps;
    var ops := [Release(v)] + Reissues(v, WRAP);
    assert ops[1..] == Reissues(v, WRAP);
    var q := AfterOp(p, Release(v));
    assert v.version < WRAP && q.free == [v.id] && q.emitters[v.id].vid == v;
    assert Vid(v.id, Advanced(v.version, WRAP)) == v;
    hide Live, AfterOp, PoolValid;
    LoneReissued(q, v, WRAP);
    FirstOp(p, ops, v.id);
  }

  // ----- the pool object -----

  class AudioEmitterManager {
    var emitters: seq<Emitter>
    var availableIds: seq<nat>

    ghost function View(): Pool
      reads this
    {
      Pool(emitters, availableIds)
    }

    constructor New()
      ensures PoolValid(View()) && Queue(View()) == seq(POOL_SIZE, i => i)
      ensures forall i :: 0 <= i < POOL_SIZE ==> emitters[i] == BLANK.(vid := Vid(i, 0))
    {
      emitters := [];
      availableIds := [];
      new;
      for i := 0 to POOL_SIZE
        invariant |emitters| == i && availableIds == CountDown(i)
        invariant forall k :: 0 <= k < i ==> emitters[k] == BLANK.(vid := Vid(k, 0))
      {
        emitters := emitters + [BLANK.(vid := Vid(i, 0))];
        availableIds := [i] + availableIds;
      }
      forall k: nat ensures k in CountDown(POOL_SIZE) <==> k < POOL_SIZE {
        assert k < POOL_SIZE ==> CountDown(POOL_SIZE)[POOL_SIZE - 1 - k] == k;
      }
    }

    method NewEmitter() returns (vid: Option<Vid>)
      requires PoolValid(View())
      modifies this
      ensures PoolValid(View()) && View() == Acquired(old(View()))
      ensures vid.None? <==> old(availableIds) == []
      ensures vid.Some? ==> vid.value.id == NextId(old(View())) && vid.value == emitters[vid.value.id].vid
      ensures vid.Some? ==> Live(View(), vid.value) && !old(emitters)[vid.value.id].active
    {
      AcquiredIsValid(View());
      if availableIds == [] {
        return None;
      }
      var id := availableIds[|availableIds| - 1];
      availableIds := availableIds[..|availableIds| - 1];
      var e := emitters[id];
      e := e.(active := true);
      e := e.(vid := Vid(e.vid.id, (e.vid.version + 1) % WRAP));
      e := e.(started := false, instance := NO_INSTANCE);
      e := e.(owner := None, attached := None);
      e := e.(offset := ORIGIN, position := ORIGIN);
      emitters := emitters[id := e];
      vid := Some(e.vid);
    }

    // The slot of a handle that still resolves.
    method GetEmitterMut(vid: Vid) returns (slot: Option<nat>)
      requires PoolValid(View())
      ensures slot == if Live(View(), vid) then Some(vid.id) else None
    {
      if vid.id == NO_ID || vid.id >= |emitters| {
        return None;
      }
      var e := emitters[vid.id];
      if !e.active || e.vid.version != vid.version {
        return None;
      }
      slot := Some(vid.id);
    }

    method DeactivateEmitter(id: nat)
      requires PoolValid(View()) && id < POOL_SIZE
      modifies this
      ensures PoolValid(View()) && View() == Deactivated(old(View()), id)
    {
      DeactivatedIsValid(View(), id);
      var e := emitters[id];
      if !e.active {
        return;
      }
      e := e.(active := false);
      e := e.(started := false, instance := NO_INSTANCE);
      e := e.(owner := None, attached := None);
      emitters := emitters[id := e];
      availableIds := [e.vid.id] + availableIds;
    }

    method SetInactiveVid(vid: Vid)
      requires PoolValid(View())
      modifies this
      ensures PoolValid(View()) && View() == AfterOp(old(View()), Release(vid)) && !Live(View(), vid)
    {
      var slot := GetEmitterMut(vid);
      if slot.None? {
        return;
      }
      DeactivatedIsValid(View(), slot.value);
      DeactivateEmitter(slot.value);
    }

    method ClearAll()
      requires PoolValid(View())
      modifies this
      ensures PoolValid(View()) && View() == Cleared(old(View())) && ActiveIds(View()) == {}
    {
      ClearedIsValid(View());
      ghost var start := emitters;
      availableIds := [];
      for i := 0 to |emitters|
        invariant |emitters| == |start| && availableIds == CountDown(i)
        invariant forall k :: 0 <= k < i ==> emitters[k] == Retired(start[k])
        invariant forall k :: i <= k < |start| ==> emitters[k] == start[k]
      {
        var e := emitters[i].(active := false);
        e := e.(started := false, instance := NO_INSTANCE);
        e := e.(owner := None, attached := None);
        emitters := emitters[i := e];
        availableIds := [i] + availableIds;
      }
    }
  }
}
