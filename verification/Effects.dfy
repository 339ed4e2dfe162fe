/**
 Timed effects on an entity: at most twelve, in a box that exists only while there are any.
 */
module Effects {
  import opened Counting
  import opened Options

  const MAX_EFFECTS: nat := 12

  datatype EffectId =
    | NoEffect
    | Gloves | Spectacles | Compass | Mitt | SpringShoes | SpikeShoes | UdjatEye | Ankh | Meathead | Parachute
    | NoGravityUntilContact | InWater
    | Count

  // A timer of 0 means the effect does not run out.
  datatype Effect = Effect(id: EffectId, count: int, value: int, frames: nat)

  const DEFAULT := Effect(NoEffect, 0, 0, 0)

  predicate Proper(id: EffectId) { id != NoEffect && id != Count }

  // The list of effects as a value.
  ghost predicate Sound(list: seq<Effect>) {
    && |list| <= MAX_EFFECTS
    && (forall i :: 0 <= i < |list| ==> Proper(list[i].id))
    && forall i, j :: 0 <= i < j < |list| ==> list[i].id != list[j].id
  }

  function IndexOf(list: seq<Effect>, id: EffectId): (i: nat)
    ensures i <= |list|
    ensures i < |list| ==> list[i].id == id
    ensures forall k :: 0 <= k < i ==> list[k].id != id
  {
    if list == [] || list[0].id == id then 0 else 1 + IndexOf(list[1..], id)
  }

  function Topped(e: Effect, count: int, frames: nat): Effect {
    e.(count := e.count + count, frames := if frames != 0 then frames else e.frames)
  }

  function Added(list: seq<Effect>, id: EffectId, count: int, frames: nat): seq<Effect> {
    var i := IndexOf(list, id);
    if !Proper(id) then list
    else if i < |list| then list[i := Topped(list[i], count, frames)]
    else if |list| >= MAX_EFFECTS then list
    else list + [Effect(id, count, 0, frames)]
  }

  function Without(list: seq<Effect>, i: nat): seq<Effect>
    requires i < |list|
  {
    list[..i] + list[i + 1..]
  }

  function Removed(list: seq<Effect>, id: EffectId): seq<Effect> {
    var i := IndexOf(list, id);
    if i < |list| then Without(list, i) else list
  }

  // One step of every timer, dropping the effects whose timer runs out.
  function Ticked(list: seq<Effect>): seq<Effect> {
    if list == [] then []
    else if list[0].frames == 0 then [list[0]] + Ticked(list[1..])
    else if list[0].frames == 1 then Ticked(list[1..])
    else [list[0].(frames := list[0].frames - 1)] + Ticked(list[1..])
  }

  function TickedTimes(list: seq<Effect>, k: nat): seq<Effect>
    decreases k
  {
    if k == 0 then list else TickedTimes(Ticked(list), k - 1)
  }

  // The effects with more than k frames left or none to count, each k frames on.
  function Survivors(list: seq<Effect>, k: nat): seq<Effect> {
    if list == [] then []
    else if list[0].frames == 0 then [list[0]] + Survivors(list[1..], k)
    else if list[0].frames <= k then Survivors(list[1..], k)
    else [list[0].(frames := list[0].frames - k)] + Survivors(list[1..], k)
  }

  lemma {:induction false} SurvivorsOfNone(list: seq<Effect>)
    ensures Survivors(list, 0) == list
  {
    if list != [] { SurvivorsOfNone(list[1..]); }
  }

  lemma {:induction false} SurvivorsTick(list: seq<Effect>, k: nat)
    ensures Survivors(Ticked(list), k) == Survivors(list, k + 1)
  {
    if list != [] {
      SurvivorsTick(list[1..], k);
      var rest := Ticked(list[1..]);
      assert forall e: Effect :: ([e] + rest)[0] == e && ([e] + rest)[1..] == rest;
    }
  }

  /** After k steps exactly the permanent effects and those with more than k frames are left, in order. */
  lemma {:induction false} TimersOverRuns(list: seq<Effect>, k: nat)
    ensures TickedTimes(list, k) == Survivors(list, k)
    decreases k
  {
    if k == 0 {
      SurvivorsOfNone(list);
    } else {
      TimersOverRuns(Ticked(list), k - 1);
      SurvivorsTick(list, k - 1);
    }
  }

  // Each survivor comes from an effect of the same id.
  lemma {:induction false} TickedIds(list: seq<Effect>)
    ensures |Ticked(list)| <= |list|
    ensures forall i :: 0 <= i < |Ticked(list)| ==> exists j :: 0 <= j < |list| && list[j].id == Ticked(list)[i].id
  {
    if list != [] {
      TickedIds(list[1..]);
      var t := Ticked(list);
      forall i | 0 <= i < |t| ensures exists j :: 0 <= j < |list| && list[j].id == t[i].id {
        if list[0].frames != 1 && i == 0 {
          assert list[0].id == t[0].id;
        } else {
          var rest := Ticked(list[1..]);
          var r := if list[0].frames == 1 then i else i - 1;
          assert t[i] == rest[r];
          var j :| 0 <= j < |list[1..]| && list[1..][j].id == rest[r].id;
          assert list[j + 1].id == t[i].id;
        }
      }
    }
  }

  lemma {:induction false} TickedSound(list: seq<Effect>)
    requires Sound(list)
    ensures Sound(Ticked(list))
  {
    if list != [] {
      var rest := Ticked(list[1..]);
      TickedSound(list[1..]);
      TickedIds(list[1..]);
      forall i | 0 <= i < |rest| ensures rest[i].id != list[0].id {
        var j :| 0 <= j < |list[1..]| && list[1..][j].id == rest[i].id;
        assert list[j + 1].id == rest[i].id;
      }
      assert Proper(list[0].id) && |rest| < MAX_EFFECTS;
      hide Sound;
      HeadSound(list[0], rest);
      HeadSound(list[0].(frames := if list[0].frames > 0 then list[0].frames - 1 else 0), rest);
    }
  }

  lemma HeadSound(e: Effect, rest: seq<Effect>)
    requires Sound(rest) && Proper(e.id) && |rest| < MAX_EFFECTS && forall i :: 0 <= i < |rest| ==> rest[i].id != e.id
    ensures Sound([e] + rest)
  {
  }

  lemma WithoutSound(list: seq<Effect>, i: nat)
    requires Sound(list) && i < |list|
    ensures Sound(Without(list, i))
    ensures IndexOf(Without(list, i), list[i].id) == |list| - 1
  {
  }

  lemma AddedSound(list: seq<Effect>, id: EffectId, count: int, frames: nat)
    requires Sound(list)
    ensures Sound(Added(list, id, count, frames))
    ensures Proper(id) && (IndexOf(list, id) < |list| || |list| < MAX_EFFECTS) ==>
              IndexOf(Added(list, id, count, frames), id) < |Added(list, id, count, frames)|
  {
    var next := Added(list, id, count, frames);
    if Proper(id) && IndexOf(list, id) < |list| {
      assert next[IndexOf(list, id)].id == id;
    } else if Proper(id) && |list| < MAX_EFFECTS {
      assert next[|list|].id == id;
    }
  }

  /** Removing what was just added to an entity without it gives the list back. */
  lemma AddThenRemove(list: seq<Effect>, id: EffectId, count: int, frames: nat)
    requires Sound(list) && Proper(id) && IndexOf(list, id) == |list| && |list| < MAX_EFFECTS
    ensures Removed(Added(list, id, count, frames), id) == list
  {
    var next := Added(list, id, count, frames);
    assert next[|list|].id == id;
    assert IndexOf(next, id) == |list|;
  }

  // What the list holds of an effect.
  function CountOf(list: seq<Effect>, id: EffectId): int {
    var i := IndexOf(list, id);
    if i < |list| then list[i].count else 0
  }

  function TimerOf(list: seq<Effect>, id: EffectId): nat {
    var i := IndexOf(list, id);
    if i < |list| then list[i].frames else 0
  }

  datatype Addition = Addition(id: EffectId, count: int, frames: nat)

  function AddedAll(list: seq<Effect>, adds: seq<Addition>): seq<Effect>
    decreases |adds|
  {
    if adds == [] then list
    else AddedAll(Added(list, adds[0].id, adds[0].count, adds[0].frames), adds[1..])
  }

  function Sum(adds: seq<Addition>, id: EffectId): int
    decreases |adds|
  {
    if adds == [] then 0 else (if adds[0].id == id then adds[0].count else 0) + Sum(adds[1..], id)
  }

  // The last timer that was given, if any was.
  function LastTimer(adds: seq<Addition>, id: EffectId, timer: nat): nat
    decreases |adds|
  {
    if adds == [] then timer
    else LastTimer(adds[1..], id, if adds[0].id == id && adds[0].frames != 0 then adds[0].frames else timer)
  }

  lemma OneAdded(list: seq<Effect>, id: EffectId, count: int, frames: nat, other: EffectId)
    requires Sound(list) && Proper(other)
    ensures var next := Added(list, id, count, frames);
            && CountOf(next, other) == CountOf(list, other) + (if id == other then count else 0)
            && TimerOf(next, other) == (if id == other && frames != 0 then frames else TimerOf(list, other))
            && (IndexOf(next, other) < |next| <==> id == other || IndexOf(list, other) < |list|)
  {
    var i := IndexOf(list, id);
    if Proper(id) {
      if i < |list| {
        OneTopped(list, i, count, frames, other);
      } else {
        NeverFull(list, id);
        OneAppended(list, id, count, frames, other);
      }
    }
    hide IndexOf, CountOf, TimerOf, Sound, Topped;
  }

  lemma OneTopped(list: seq<Effect>, i: nat, count: int, frames: nat, other: EffectId)
    requires i < |list| && i == IndexOf(list, list[i].id)
    ensures var next, id := list[i := Topped(list[i], count, frames)], list[i].id;
            && CountOf(next, other) == CountOf(list, other) + (if id == other then count else 0)
            && TimerOf(next, other) == (if id == other && frames != 0 then frames else TimerOf(list, other))
            && (IndexOf(next, other) < |next| <==> id == other || IndexOf(list, other) < |list|)
  {
    var next := list[i := Topped(list[i], count, frames)];
    IndexKept(list, next, other);
    var j := IndexOf(list, other);
    assert j < |list| ==> (j == i <==> list[i].id == other);
    assert j < |list| && j != i ==> next[j] == list[j];
    hide IndexOf;
  }

  lemma OneAppended(list: seq<Effect>, id: EffectId, count: int, frames: nat, other: EffectId)
    requires IndexOf(list, id) == |list|
    ensures var next := list + [Effect(id, count, 0, frames)];
            && CountOf(next, other) == CountOf(list, other) + (if id == other then count else 0)
            && TimerOf(next, other) == (if id == other && frames != 0 then frames else TimerOf(list, other))
            && (IndexOf(next, other) < |next| <==> id == other || IndexOf(list, other) < |list|)
  {
    IndexAppended(list, Effect(id, count, 0, frames), other);
    hide IndexOf;
  }

  lemma IndexKept(list: seq<Effect>, next: seq<Effect>, id: EffectId)
    requires |next| == |list| && forall i :: 0 <= i < |list| ==> next[i].id == list[i].id
    ensures IndexOf(next, id) == IndexOf(list, id)
  {
    if IndexOf(list, id) < |list| { IndexIs(next, id, IndexOf(list, id)); }
  }

  lemma IndexAppended(list: seq<Effect>, e: Effect, id: EffectId)
    ensures IndexOf(list + [e], id) ==
            if IndexOf(list, id) < |list| then IndexOf(list, id) else if e.id == id then |list| else |list| + 1
  {
    if IndexOf(list, id) < |list| {
      IndexIs(list + [e], id, IndexOf(list, id));
    } else if e.id == id {
      IndexIs(list + [e], id, |list|);
    }
  }

  lemma IndexIs(list: seq<Effect>, id: EffectId, i: nat)
    requires i < |list| && list[i].id == id && forall k :: 0 <= k < i ==> list[k].id != id
    ensures IndexOf(list, id) == i
  {
  }

  /** However effects are added, each holds the sum of what was added to it and the last timer it was given. */
  lemma {:induction false} AdditionsSum(list: seq<Effect>, adds: seq<Addition>, id: EffectId)
    requires Sound(list) && Proper(id)
    ensures CountOf(AddedAll(list, adds), id) == CountOf(list, id) + Sum(adds, id)
    ensures TimerOf(AddedAll(list, adds), id) == LastTimer(adds, id, TimerOf(list, id))
    decreases |adds|
  {
    if adds != [] {
      var a := adds[0];
      AddedSound(list, a.id, a.count, a.frames);
      OneAdded(list, a.id, a.count, a.frames, id);
      hide Added, CountOf, TimerOf, Sound;
      AdditionsSum(Added(list, a.id, a.count, a.frames), adds[1..], id);
    }
  }

  function Rank(id: EffectId): nat {
    match id
    case Gloves => 0 case Spectacles => 1 case Compass => 2 case Mitt => 3 case SpringShoes => 4 case SpikeShoes => 5
    case UdjatEye => 6 case Ankh => 7 case Meathead => 8 case Parachute => 9 case NoGravityUntilContact => 10
    case InWater => 11 case NoEffect => 12 case Count => 13
  }

  /** There are as many slots as effects: an entity without some effect always has a slot for it. */
  lemma NeverFull(list: seq<Effect>, id: EffectId)
    requires Sound(list) && Proper(id) && IndexOf(list, id) == |list|
    ensures |list| < MAX_EFFECTS
  {
    hide Rank, IndexOf, SetOf, IdsBelow;
    var ranks := RanksOf(list) + [Rank(id)];
    RanksDiffer(list, id);
    SubsetSize(SetOf(ranks), IdsBelow(12));
  }

  function RanksOf(list: seq<Effect>): seq<nat> {
    seq(|list|, i requires 0 <= i < |list| => Rank(list[i].id))
  }

  lemma RanksDiffer(list: seq<Effect>, id: EffectId)
    requires Sound(list) && Proper(id) && IndexOf(list, id) == |list|
    ensures NoRepeats(RanksOf(list) + [Rank(id)]) && SetOf(RanksOf(list) + [Rank(id)]) <= IdsBelow(12)
  {
    var ranks := RanksOf(list) + [Rank(id)];
    hide Rank, SetOf, IdsBelow;
    forall i, j | 0 <= i < j < |ranks| ensures ranks[i] != ranks[j] {
      RankInjective(list[i].id, if j < |list| then list[j].id else id);
    }
    hide IndexOf;
    forall r | r in ranks ensures r < 12 {
      var k :| 0 <= k < |ranks| && ranks[k] == r;
      ProperRank(if k < |list| then list[k].id else id);
    }
  }

  lemma RankInjective(a: EffectId, b: EffectId)
    ensures Rank(a) == Rank(b) <==> a == b
  {
  }

  lemma ProperRank(id: EffectId)
    ensures Proper(id) <==> Rank(id) < 12
  {
  }

  // ----- runs -----

  datatype Op = Add(id: EffectId, count: int, frames: nat) | Remove(id: EffectId) | Tick

  function After(list: seq<Effect>, op: Op): seq<Effect> {
    match op
    case Add(id, count, frames) => Added(list, id, count, frames)
    case Remove(id) => Removed(list, id)
    case Tick => Ticked(list)
  }

  function Run(list: seq<Effect>, ops: seq<Op>): seq<Effect>
    decreases |ops|
  {
    if ops == [] then list else Run(After(list, ops[0]), ops[1..])
  }

  /** Over every run the ids stay distinct and proper and there are at most twelve. */
  lemma {:induction false} RunSound(list: seq<Effect>, ops: seq<Op>)
    requires Sound(list)
    ensures Sound(Run(list, ops))
    decreases |ops|
  {
    if ops != [] {
      match ops[0] {
        case Add(id, count, frames) => AddedSound(list, id, count, frames);
        case Remove(id) => if IndexOf(list, id) < |list| { WithoutSound(list, IndexOf(list, id)); }
        case Tick => TickedSound(list);
      }
      RunSound(After(list, ops[0]), ops[1..]);
    }
  }

  // ----- the entity -----

  class Ent {
    // Null when the entity has no box.
    var effects: array?<Effect>
    var count: nat

    ghost function List(): seq<Effect>
      reads this, effects
    {
      if effects != null && count <= effects.Length then effects[..count] else []
    }

    // A box holds 1 to 12 effects and default slots after them.
    ghost predicate Valid()
      reads this, effects
    {
      && Sound(List())
      && (effects == null ==> count == 0)
      && (effects != null ==>
            && effects.Length == MAX_EFFECTS && 1 <= count <= MAX_EFFECTS
            && forall i :: count <= i < MAX_EFFECTS ==> effects[i] == DEFAULT)
    }

    constructor ()
      ensures Valid() && List() == []
    {
      effects := null;
      count := 0;
    }

    method FindEffect(id: EffectId) returns (index: Option<nat>)
      requires Valid()
      ensures index == if IndexOf(List(), id) < |List()| then Some(IndexOf(List(), id)) else None
    {
      if effects == null {
        return None;
      }
      for i := 0 to count
        invariant IndexOf(List(), id) >= i
      {
        if effects[i].id == id {
          return Some(i);
        }
      }
      index := None;
    }

    method AddEffect(id: EffectId, amount: int, frames: nat) returns (index: Option<nat>)
      requires Valid()
      modifies this, effects
      ensures Valid() && List() == Added(old(List()), id, amount, frames)
      ensures effects == old(effects) || fresh(effects)
      ensures index.Some? <==> Proper(id)
      ensures index.Some? ==> index.value < |List()| && List()[index.value].id == id
    {
      if id == NoEffect || id == Count {
        return None;
      }
      AddedSound(List(), id, amount, frames);
      index := FindEffect(id);
      if index.Some? {
        var existing := effects[index.value];
        if amount != 0 {
          existing := existing.(count := existing.count + amount);
        }
        if frames != 0 {
          existing := existing.(frames := frames);
        }
        effects[index.value] := existing;
        assert List() == Added(old(List()), id, amount, frames);
        return;
      }
      NeverFull(List(), id);
      index := Append(id, amount, frames);
    }

    method Append(id: EffectId, amount: int, frames: nat) returns (index: Option<nat>)
      requires Valid() && Proper(id) && IndexOf(List(), id) == |List()|
      modifies this, effects
      ensures Valid() && List() == Added(old(List()), id, amount, frames)
      ensures effects == old(effects) || fresh(effects)
      ensures index == if |old(List())| < MAX_EFFECTS then Some(|old(List())|) else None
    {
      AddedSound(List(), id, amount, frames);
      if effects == null {
        effects := new Effect[MAX_EFFECTS](i => DEFAULT);
        assert List() == [];
      }
      if count >= effects.Length {
        return None;
      }
      effects[count] := Effect(id, amount, 0, frames);
      count := count + 1;
      index := Some(count - 1);
      assert List() == Added(old(List()), id, amount, frames);
    }

    method RemoveEffectAt(index: nat)
      requires Valid()
      modifies this, effects
      ensures Valid() && (effects == old(effects) || effects == null)
      ensures List() == if index < |old(List())| then Without(old(List()), index) else old(List())
    {
      if effects == null || index >= count {
        return;
      }
      WithoutSound(List(), index);
      ghost var start := List();
      ShiftDown(index);
      count := count - 1;
      effects[count] := DEFAULT;
      assert effects[..count] == Without(start, index);
      if count == 0 {
        effects := null;
      }
    }

    method ShiftDown(index: nat)
      requires Valid() && effects != null && index < count
      modifies effects
      ensures effects[..count - 1] == Without(old(List()), index)
      ensures forall k :: count <= k < MAX_EFFECTS ==> effects[k] == DEFAULT
    {
      ghost var start := List();
      for i := index to count - 1
        invariant forall k :: 0 <= k < index ==> effects[k] == start[k]
        invariant forall k :: index <= k < i ==> effects[k] == start[k + 1]
        invariant forall k :: i < k < count ==> effects[k] == start[k]
        invariant forall k :: count <= k < MAX_EFFECTS ==> effects[k] == DEFAULT
      {
        effects[i] := effects[i + 1];
      }
    }

    method RemoveEffect(id: EffectId)
      requires Valid()
      modifies this, effects
      ensures Valid() && List() == Removed(old(List()), id) && (effects == old(effects) || effects == null)
    {
      var index := FindEffect(id);
      if index.Some? {
        RemoveEffectAt(index.value);
      }
    }

    method SetEffect(id: EffectId, enabled: bool)
      requires Valid()
      modifies this, effects
      ensures Valid()
      ensures List() == if enabled then Added(old(List()), id, 0, 0) else Removed(old(List()), id)
    {
      if enabled {
        var _ := AddEffect(id, 0, 0);
        return;
      }
      RemoveEffect(id);
    }

    /** One step of every timer; the box goes with its last effect. */
    method StepEffectTimers()
      requires Valid()
      modifies this, effects
      ensures Valid() && List() == Ticked(old(List())) && (effects == old(effects) || effects == null)
    {
      if effects == null {
        return;
      }
      var index := 0;
      while effects != null && index < count
        invariant Valid() && (effects == old(effects) || effects == null) && 0 <= index <= |List()|
        invariant List()[..index] + Ticked(List()[index..]) == Ticked(old(List()))
        decreases |List()| - index
      {
        index := StepTimer(index);
      }
      assert List()[..index] == List() && List()[index..] == [];
    }

    // One iteration: the index moves on, or an effect goes and the next one takes its place.
    method StepTimer(index: nat) returns (next: nat)
      requires Valid() && effects != null && index < count
      modifies this, effects
      ensures Valid() && (effects == old(effects) || effects == null)
      ensures next <= |List()| && |List()| - next < |old(List())| - index
      ensures List()[..next] + Ticked(List()[next..]) == old(List()[..index] + Ticked(List()[index..]))
    {
      ghost var before := List();
      StepAt(before, index);
      WithoutLength(before, index);
      hide Ticked, Without, Sound, IndexOf;
      if effects[index].frames == 0 {
        return index + 1;
      }
      DropsSame(before, index);
      var left := Decrement(index);
      hide Decremented;
      if left == 0 {
        RemoveEffectAt(index);
        return index;
      }
      next := index + 1;
    }

    method Decrement(index: nat) returns (left: nat)
      requires Valid() && effects != null && index < count && effects[index].frames > 0
      modifies effects
      ensures Valid() && List() == Decremented(old(List()), index)
      ensures left == old(List())[index].frames - 1
    {
      left := effects[index].frames - 1;
      effects[index] := effects[index].(frames := effects[index].frames - 1);
      assert List() == Decremented(old(List()), index);
    }
  }

  function Decremented(list: seq<Effect>, i: nat): seq<Effect>
    requires i < |list| && list[i].frames > 0
  {
    list[i := list[i].(frames := list[i].frames - 1)]
  }

  lemma WithoutLength(list: seq<Effect>, i: nat)
    requires i < |list|
    ensures |Without(list, i)| == |list| - 1
  {
  }

  lemma DropsSame(list: seq<Effect>, i: nat)
    requires i < |list| && list[i].frames > 0
    ensures Without(Decremented(list, i), i) == Without(list, i)
  {
  }

  // One iteration of the timer loop, on lists.
  lemma StepAt(list: seq<Effect>, i: nat)
    requires i < |list|
    ensures list[i].frames == 0 ==> list[..i + 1] + Ticked(list[i + 1..]) == list[..i] + Ticked(list[i..])
    ensures list[i].frames == 1 ==>
              Without(list, i)[..i] + Ticked(Without(list, i)[i..]) == list[..i] + Ticked(list[i..])
    ensures list[i].frames > 1 ==>
              var next := Decremented(list, i);
              next[..i + 1] + Ticked(next[i + 1..]) == list[..i] + Ticked(list[i..])
  {
  }
}
