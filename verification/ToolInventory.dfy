/**
 The tool slots of entities: two per owner, at most one of a kind, and never both bombs.
 */
module ToolInventory {
  import opened Options
  import opened Vids

  const SLOT_COUNT: nat := 2
  const MAX_COUNT: nat := 65535

  datatype ToolKind = ThrowPot | ThrowBomb | ThrowRope | ThrowStickyBomb

  datatype Slot = Slot(kind: ToolKind, count: nat, cooldown: nat, active: bool)

  datatype OwnerTools = OwnerTools(owner: Vid, slots: seq<Slot>)

  const EMPTY := Slot(ThrowPot, 0, 0, false)
  const NO_TOOLS: seq<Slot> := [EMPTY, EMPTY]

  function Preferred(kind: ToolKind): Option<nat> {
    match kind
    case ThrowPot => None
    case ThrowBomb => Some(0)
    case ThrowRope => Some(1)
    case ThrowStickyBomb => Some(0)
  }

  function Fresh(kind: ToolKind): Slot { Slot(kind, 0, 0, true) }

  predicate Holds(slots: seq<Slot>, kind: ToolKind) {
    exists i :: 0 <= i < |slots| && slots[i].active && slots[i].kind == kind
  }

  predicate HasRoom(slots: seq<Slot>) {
    exists i :: 0 <= i < |slots| && !slots[i].active
  }

  // One owner's slots: kinds are distinct, and plain and sticky bombs exclude each other.
  ghost predicate Good(slots: seq<Slot>) {
    && |slots| == SLOT_COUNT
    && (forall i :: 0 <= i < SLOT_COUNT ==> slots[i].count <= MAX_COUNT)
    && (forall i, j :: 0 <= i < j < SLOT_COUNT && slots[i].active && slots[j].active ==> slots[i].kind != slots[j].kind)
    && !(Holds(slots, ThrowBomb) && Holds(slots, ThrowStickyBomb))
  }

  function FindKind(slots: seq<Slot>, kind: ToolKind, i: nat): Option<nat>
    decreases |slots| - i
  {
    if i >= |slots| then None
    else if slots[i].active && slots[i].kind == kind then Some(i)
    else FindKind(slots, kind, i + 1)
  }

  function FindFree(slots: seq<Slot>, i: nat): Option<nat>
    decreases |slots| - i
  {
    if i >= |slots| then None else if !slots[i].active then Some(i) else FindFree(slots, i + 1)
  }

  // Where a new kind goes: its preferred slot if that is free, else the first free slot.
  function PlaceFor(slots: seq<Slot>, kind: ToolKind): Option<nat> {
    if Preferred(kind).Some? && Preferred(kind).value < |slots| && !slots[Preferred(kind).value].active
    then Preferred(kind) else FindFree(slots, 0)
  }

  // The slot an addition goes to: bombs join sticky bombs, anything joins its kind, else a free slot.
  function Target(slots: seq<Slot>, kind: ToolKind): Option<nat> {
    if kind == ThrowBomb && FindKind(slots, ThrowStickyBomb, 0).Some? then FindKind(slots, ThrowStickyBomb, 0)
    else if FindKind(slots, kind, 0).Some? then FindKind(slots, kind, 0)
    else PlaceFor(slots, kind)
  }

  // Counts are 16-bit; the sum before the cap is 32-bit and wraps.
  function Raised(count: nat, amount: nat): nat {
    var sum := (count + amount) % WRAP;
    if sum < MAX_COUNT then sum else MAX_COUNT
  }

  function Grown(slot: Slot, kind: ToolKind, amount: nat): Slot {
    var s := if slot.active then slot else Fresh(kind);
    s.(count := Raised(s.count, amount))
  }

  function SlotsAdded(slots: seq<Slot>, kind: ToolKind, amount: nat): seq<Slot> {
    var t := Target(slots, kind);
    if amount == 0 || t.None? || t.value >= |slots| then slots
    else slots[t.value := Grown(slots[t.value], kind, amount)]
  }

  function SlotsUpgraded(slots: seq<Slot>): seq<Slot> {
    if FindKind(slots, ThrowStickyBomb, 0).Some? then slots
    else
      var bomb := FindKind(slots, ThrowBomb, 0);
      var place := PlaceFor(slots, ThrowStickyBomb);
      if bomb.Some? && bomb.value < |slots| then slots[bomb.value := slots[bomb.value].(kind := ThrowStickyBomb)]
      else if place.Some? && place.value < |slots| then slots[place.value := Fresh(ThrowStickyBomb)]
      else slots
  }

  // ----- what one addition does -----

  lemma {:induction false} FindKindIs(slots: seq<Slot>, kind: ToolKind, i: nat)
    requires i <= |slots|
    ensures FindKind(slots, kind, i).None? <==>
            forall k :: i <= k < |slots| ==> !(slots[k].active && slots[k].kind == kind)
    ensures FindKind(slots, kind, i).Some? ==>
              var f := FindKind(slots, kind, i).value; i <= f < |slots| && slots[f].active && slots[f].kind == kind
    decreases |slots| - i
  {
    if i < |slots| && !(slots[i].active && slots[i].kind == kind) { FindKindIs(slots, kind, i + 1); }
  }

  lemma {:induction false} FindFreeIs(slots: seq<Slot>, i: nat)
    requires i <= |slots|
    ensures FindFree(slots, i).None? <==> forall k :: i <= k < |slots| ==> slots[k].active
    ensures FindFree(slots, i).Some? ==>
              var f := FindFree(slots, i).value; i <= f < |slots| && !slots[f].active
    decreases |slots| - i
  {
    if i < |slots| && slots[i].active { FindFreeIs(slots, i + 1); }
  }

  lemma TargetIs(slots: seq<Slot>, kind: ToolKind)
    ensures var t := Target(slots, kind);
            && (t.None? <==>
                !Holds(slots, kind) && !(kind == ThrowBomb && Holds(slots, ThrowStickyBomb)) && !HasRoom(slots))
            && (t.Some? ==> t.value < |slots|)
            && (t.Some? && slots[t.value].active ==>
                  slots[t.value].kind == kind || (kind == ThrowBomb && slots[t.value].kind == ThrowStickyBomb))
            && (t.Some? && !slots[t.value].active ==>
                  !Holds(slots, kind) && !(kind == ThrowBomb && Holds(slots, ThrowStickyBomb)))
  {
    FindKindIs(slots, ThrowStickyBomb, 0);
    FindKindIs(slots, kind, 0);
    FindFreeIs(slots, 0);
  }

  /** A new kind of bomb goes to the first slot and ropes to the second, if free, and else to the first that is. */
  lemma NewKindGoes(slots: seq<Slot>, kind: ToolKind)
    requires |slots| == SLOT_COUNT && !Holds(slots, kind) && !(kind == ThrowBomb && Holds(slots, ThrowStickyBomb))
    ensures var t := Target(slots, kind);
            && (kind != ThrowRope && !slots[0].active ==> t == Some(0))
            && (kind == ThrowRope && !slots[1].active ==> t == Some(1))
            && (slots[0].active && !slots[1].active ==> t == Some(1))
            && (!slots[0].active && slots[1].active ==> t == Some(0))
  {
    FindKindIs(slots, ThrowStickyBomb, 0);
    FindKindIs(slots, kind, 0);
    assert FindFree(slots, 0) ==
           if !slots[0].active then Some(0) else if !slots[1].active then Some(1) else None by {
      assert FindFree(slots, 1) == if !slots[1].active then Some(1) else None by { assert FindFree(slots, 2) == None; }
    }
    hide FindKind, FindFree;
  }

  /**
   An addition keeps the slots good except in one case: sticky bombs added to an owner of plain
   bombs with a free slot take the free slot, and the owner has both.
   */
  lemma AdditionKeepsGood(slots: seq<Slot>, kind: ToolKind, amount: nat)
    requires Good(slots) && amount > 0
    ensures Good(SlotsAdded(slots, kind, amount)) <==>
            !(kind == ThrowStickyBomb && Holds(slots, ThrowBomb) && HasRoom(slots))
  {
    TargetIs(slots, kind);
    hide FindKind, FindFree, Target, Raised, PlaceFor;
    RaisedBelow(slots[0].count, amount);
    RaisedBelow(slots[1].count, amount);
    RaisedBelow(0, amount);
    var next := SlotsAdded(slots, kind, amount);
    var t := Target(slots, kind);
    if t.Some? && kind == ThrowStickyBomb && Holds(slots, ThrowBomb) {
      assert next[t.value].active && next[t.value].kind == ThrowStickyBomb;
      assert next[1 - t.value] == slots[1 - t.value];
    }
  }

  lemma RaisedBelow(count: nat, amount: nat)
    ensures Raised(count, amount) <= MAX_COUNT
  {
  }

  /** The case is real. */
  lemma BothBombs()
    ensures var slots := [Slot(ThrowBomb, 3, 0, true), EMPTY];
            Good(slots) && !Good(SlotsAdded(slots, ThrowStickyBomb, 1))
  {
    var slots := [Slot(ThrowBomb, 3, 0, true), EMPTY];
    assert slots[0].active;
    assert !slots[1].active;
    AdditionKeepsGood(slots, ThrowStickyBomb, 1);
  }

  /** A count rises by the amount up to the cap, exactly unless the 32-bit sum wraps. */
  lemma RaiseIsCapped(count: nat, amount: nat)
    requires count <= MAX_COUNT && amount < WRAP
    ensures Raised(count, amount) == count + (if amount < MAX_COUNT - count then amount else MAX_COUNT - count)
            <==> count + amount < WRAP
  {
  }

  /** Nothing but the chosen slot changes, and it rises by what was added or starts from nothing. */
  lemma OnlyTargetChanges(slots: seq<Slot>, kind: ToolKind, amount: nat, i: nat)
    requires i < |slots| && amount > 0
    ensures var next := SlotsAdded(slots, kind, amount);
            && |next| == |slots|
            && (next[i] != slots[i] ==> Target(slots, kind) == Some(i))
            && (Target(slots, kind) == Some(i) ==>
                  && next[i].active && (next[i].kind == kind || (kind == ThrowBomb && next[i].kind == ThrowStickyBomb))
                  && next[i].count == Raised(if slots[i].active then slots[i].count else 0, amount))
  {
    TargetIs(slots, kind);
  }

  ghost predicate Upgrades(slots: seq<Slot>, next: seq<Slot>)
    requires |slots| == SLOT_COUNT
  {
    && Good(next) && !Holds(next, ThrowBomb) && Holds(next, ThrowStickyBomb)
    && forall i :: 0 <= i < SLOT_COUNT && slots[i].active ==>
         next[i].active && next[i].count == slots[i].count && next[i].cooldown == slots[i].cooldown
  }

  lemma ConvertUpgrades(slots: seq<Slot>, i: nat)
    requires Good(slots) && !Holds(slots, ThrowStickyBomb) && i < SLOT_COUNT && slots[i].active &&
             slots[i].kind == ThrowBomb
    ensures Upgrades(slots, slots[i := slots[i].(kind := ThrowStickyBomb)])
  {
    assert slots[i := slots[i].(kind := ThrowStickyBomb)][i].active;
  }

  lemma PlaceUpgrades(slots: seq<Slot>, i: nat)
    requires Good(slots) && !Holds(slots, ThrowStickyBomb) && !Holds(slots, ThrowBomb) && i < SLOT_COUNT
    requires !slots[i].active
    ensures Upgrades(slots, slots[i := Fresh(ThrowStickyBomb)])
  {
    assert slots[i := Fresh(ThrowStickyBomb)][i].active;
  }

  /** An upgrade keeps the slots good, keeps every count, and leaves no plain bombs. */
  lemma UpgradeKeepsGood(slots: seq<Slot>)
    requires Good(slots)
    ensures var next := SlotsUpgraded(slots);
            if Holds(slots, ThrowBomb) || Holds(slots, ThrowStickyBomb) || HasRoom(slots) then Upgrades(slots, next)
            else next == slots && !Holds(slots, ThrowBomb)
  {
    FindKindIs(slots, ThrowStickyBomb, 0);
    FindKindIs(slots, ThrowBomb, 0);
    FindFreeIs(slots, 0);
    var f, p := FindKind(slots, ThrowBomb, 0), PlaceFor(slots, ThrowStickyBomb);
    assert p.Some? <==> HasRoom(slots);
    assert p.Some? ==> p.value < SLOT_COUNT && !slots[p.value].active;
    hide FindKind, FindFree, PlaceFor;
    if FindKind(slots, ThrowStickyBomb, 0).None? {
      if f.Some? { ConvertUpgrades(slots, f.value); }
      else if p.Some? { PlaceUpgrades(slots, p.value); }
    }
  }

  /** Plain bombs picked up after an upgrade become sticky bombs. */
  lemma BombsStayUpgraded(slots: seq<Slot>, amount: nat)
    requires Good(slots) && Holds(slots, ThrowStickyBomb) && amount > 0
    ensures !Holds(SlotsAdded(slots, ThrowBomb, amount), ThrowBomb)
  {
    TargetIs(slots, ThrowBomb);
  }

  // ----- the inventory -----

  ghost predicate InventoryGood(tools: seq<OwnerTools>) {
    && (forall i, j :: 0 <= i < j < |tools| ==> tools[i].owner != tools[j].owner)
    && forall i :: 0 <= i < |tools| ==> Good(tools[i].slots)
  }

  function IndexOfOwner(tools: seq<OwnerTools>, owner: Vid): (i: nat)
    ensures i <= |tools|
    ensures i < |tools| ==> tools[i].owner == owner
    ensures forall k :: 0 <= k < i ==> tools[k].owner != owner
  {
    if tools == [] || tools[0].owner == owner then 0 else 1 + IndexOfOwner(tools[1..], owner)
  }

  function SlotsOf(tools: seq<OwnerTools>, owner: Vid): seq<Slot> {
    var i := IndexOfOwner(tools, owner);
    if i < |tools| then tools[i].slots else NO_TOOLS
  }

  function WithSlots(tools: seq<OwnerTools>, owner: Vid, slots: seq<Slot>): seq<OwnerTools> {
    var i := IndexOfOwner(tools, owner);
    if i < |tools| then tools[i := OwnerTools(owner, slots)] else tools + [OwnerTools(owner, slots)]
  }

  // Writing one owner's slots reads back for that owner and no other.
  lemma WithSlotsReads(tools: seq<OwnerTools>, owner: Vid, slots: seq<Slot>, other: Vid)
    ensures SlotsOf(WithSlots(tools, owner, slots), other) == if other == owner then slots else SlotsOf(tools, other)
  {
    var next := WithSlots(tools, owner, slots);
    var i, j, k := IndexOfOwner(tools, owner), IndexOfOwner(next, other), IndexOfOwner(tools, other);
    if other == owner {
      assert next[i].owner == owner;
      assert j == i;
    } else {
      assert forall m :: 0 <= m < |tools| ==> next[m].owner == tools[m].owner && (m != i ==> next[m] == tools[m]);
      assert k < |tools| ==> j == k;
    }
  }

  lemma WithSlotsGood(tools: seq<OwnerTools>, owner: Vid, slots: seq<Slot>)
    requires InventoryGood(tools) && Good(slots)
    ensures InventoryGood(WithSlots(tools, owner, slots))
  {
  }

  lemma SlotsOfGood(tools: seq<OwnerTools>, owner: Vid)
    requires InventoryGood(tools)
    ensures Good(SlotsOf(tools, owner))
  {
  }

  datatype Op = AddTools(owner: Vid, kind: ToolKind, amount: nat) | Upgrade(owner: Vid) | StepCooldowns

  function Cooled(s: Slot): Slot {
    if s.active && s.cooldown > 0 then s.(cooldown := s.cooldown - 1) else s
  }

  function AllCooled(tools: seq<OwnerTools>): seq<OwnerTools> {
    seq(|tools|, i requires 0 <= i < |tools| =>
      OwnerTools(tools[i].owner,
                 seq(|tools[i].slots|, j requires 0 <= j < |tools[i].slots| => Cooled(tools[i].slots[j]))))
  }

  function After(tools: seq<OwnerTools>, op: Op): seq<OwnerTools> {
    match op
    case AddTools(owner, kind, amount) =>
      if amount == 0 then tools else WithSlots(tools, owner, SlotsAdded(SlotsOf(tools, owner), kind, amount))
    case Upgrade(owner) => WithSlots(tools, owner, SlotsUpgraded(SlotsOf(tools, owner)))
    case StepCooldowns => AllCooled(tools)
  }

  // The one call that breaks the rule on bombs.
  predicate Breaks(tools: seq<OwnerTools>, op: Op) {
    op.AddTools? && op.kind == ThrowStickyBomb && op.amount > 0 &&
    Holds(SlotsOf(tools, op.owner), ThrowBomb) && HasRoom(SlotsOf(tools, op.owner))
  }

  function CooledTimes(s: Slot, k: nat): Slot
    decreases k
  {
    if k == 0 then s else CooledTimes(Cooled(s), k - 1)
  }

  /** A cooldown of c steps is over after exactly c, and an empty slot does not cool. */
  lemma {:induction false} CoolsDown(s: Slot, k: nat)
    ensures CooledTimes(s, k) ==
            s.(cooldown := if !s.active then s.cooldown else if s.cooldown < k then 0 else s.cooldown - k)
    decreases k
  {
    if k > 0 { CoolsDown(Cooled(s), k - 1); }
  }

  lemma CooledGood(slots: seq<Slot>, next: seq<Slot>)
    requires Good(slots) && |next| == |slots| && forall j :: 0 <= j < |slots| ==> next[j] == Cooled(slots[j])
    ensures Good(next)
  {
  }

  /** Every call but that one keeps the inventory good, and that one never does. */
  lemma AfterGood(tools: seq<OwnerTools>, op: Op)
    requires InventoryGood(tools)
    ensures InventoryGood(After(tools, op)) <==> !Breaks(tools, op)
  {
    match op
    case AddTools(owner, kind, amount) =>
      if amount > 0 {
        SlotsOfGood(tools, owner);
        AdditionKeepsGood(SlotsOf(tools, owner), kind, amount);
        var slots := SlotsAdded(SlotsOf(tools, owner), kind, amount);
        if Good(slots) {
          WithSlotsGood(tools, owner, slots);
        } else {
          WithSlotsReads(tools, owner, slots, owner);
          hide Good;
          if InventoryGood(After(tools, op)) { SlotsOfGood(After(tools, op), owner); }
        }
      }
    case Upgrade(owner) =>
      SlotsOfGood(tools, owner);
      UpgradeKeepsGood(SlotsOf(tools, owner));
      WithSlotsGood(tools, owner, SlotsUpgraded(SlotsOf(tools, owner)));
    case StepCooldowns =>
      forall i | 0 <= i < |tools| ensures Good(AllCooled(tools)[i].slots) {
        CooledGood(tools[i].slots, AllCooled(tools)[i].slots);
      }
  }

  ghost predicate NoneBreaks(tools: seq<OwnerTools>, ops: seq<Op>)
    decreases |ops|
  {
    ops == [] || (!Breaks(tools, ops[0]) && NoneBreaks(After(tools, ops[0]), ops[1..]))
  }

  function Run(tools: seq<OwnerTools>, ops: seq<Op>): seq<OwnerTools>
    decreases |ops|
  {
    if ops == [] then tools else Run(After(tools, ops[0]), ops[1..])
  }

  /** Owners stay unique and slots stay good over every run without that call. */
  lemma {:induction false} RunGood(tools: seq<OwnerTools>, ops: seq<Op>)
    requires InventoryGood(tools) && NoneBreaks(tools, ops)
    ensures InventoryGood(Run(tools, ops))
    decreases |ops|
  {
    if ops != [] {
      AfterGood(tools, ops[0]);
      hide After, InventoryGood, Breaks;
      RunGood(After(tools, ops[0]), ops[1..]);
    }
  }

  // ----- the inventory object -----

  class EntToolInventoryState {
    var toolStates: seq<OwnerTools>

    // Two slots for each owner, owners once each.
    ghost predicate Valid()
      reads this
    {
      && (forall i, j :: 0 <= i < j < |toolStates| ==> toolStates[i].owner != toolStates[j].owner)
      && forall i :: 0 <= i < |toolStates| ==> |toolStates[i].slots| == SLOT_COUNT
    }

    constructor ()
      ensures Valid() && toolStates == []
    {
      toolStates := [];
    }

    method FindEntToolState(owner: Vid) returns (index: nat)
      requires Valid()
      ensures index == IndexOfOwner(toolStates, owner)
    {
      index := 0;
      while index < |toolStates|
        invariant index <= |toolStates|
        invariant forall k :: 0 <= k < index ==> toolStates[k].owner != owner
      {
        if toolStates[index].owner == owner {
          return;
        }
        index := index + 1;
      }
    }

    // The index of the owner's entry, appended if there was none.
    method EnsureOwner(owner: Vid) returns (index: nat)
      requires Valid()
      modifies this
      ensures Valid() && index == IndexOfOwner(toolStates, owner) < |toolStates|
      ensures toolStates == WithSlots(old(toolStates), owner, SlotsOf(old(toolStates), owner))
    {
      index := FindEntToolState(owner);
      if index == |toolStates| {
        toolStates := toolStates + [OwnerTools(owner, NO_TOOLS)];
        assert toolStates[index].owner == owner;
      }
    }

    /**
     The reference to an owner's slot: where it is and what it holds. The source takes the
     caller's word for the slot's number.
     */
    method EnsureToolSlot(owner: Vid, slotIndex: nat) returns (index: nat, slot: Slot)
      requires Valid() && slotIndex < SLOT_COUNT
      modifies this
      ensures Valid() && toolStates == WithSlots(old(toolStates), owner, SlotsOf(old(toolStates), owner))
      ensures index < |toolStates| && toolStates[index].owner == owner
      ensures slot == SlotsOf(old(toolStates), owner)[slotIndex] == toolStates[index].slots[slotIndex]
    {
      index := EnsureOwner(owner);
      slot := toolStates[index].slots[slotIndex];
    }

    // Writing through that reference: this slot of this owner holds the tool, and nothing else changes.
    method FillToolSlot(index: nat, slotIndex: nat, kind: ToolKind, count: nat, active: bool)
      requires Valid() && index < |toolStates| && slotIndex < SLOT_COUNT && count <= MAX_COUNT
      modifies this
      ensures Valid() && |toolStates| == |old(toolStates)|
      ensures SlotsOf(toolStates, old(toolStates)[index].owner) ==
              SlotsOf(old(toolStates), old(toolStates)[index].owner)[slotIndex := Slot(kind, count, 0, active)]
      ensures forall other :: other != old(toolStates)[index].owner ==>
                SlotsOf(toolStates, other) == SlotsOf(old(toolStates), other)
    {
      var owner, slots := toolStates[index].owner, toolStates[index].slots;
      var filled := slots[slotIndex := Slot(kind, count, 0, active)];
      assert index == IndexOfOwner(toolStates, owner);
      forall other ensures SlotsOf(WithSlots(toolStates, owner, filled), other) ==
                           if other == owner then filled else SlotsOf(toolStates, other) {
        WithSlotsReads(toolStates, owner, filled, other);
      }
      WriteSlots(index, owner, filled);
    }

    method FindToolSlot(owner: Vid, slotIndex: nat) returns (slot: Option<Slot>)
      requires Valid()
      ensures slot.Some? <==>
              slotIndex < SLOT_COUNT && exists i :: 0 <= i < |toolStates| && toolStates[i].owner == owner
      ensures slot.Some? ==> slot.value == SlotsOf(toolStates, owner)[slotIndex]
    {
      var index := FindEntToolState(owner);
      if index == |toolStates| || slotIndex >= |toolStates[index].slots| {
        return None;
      }
      slot := Some(toolStates[index].slots[slotIndex]);
    }

    method AddToolCount(owner: Vid, kind: ToolKind, amount: nat) returns (added: bool)
      requires Valid() && amount < WRAP
      modifies this
      ensures Valid() && toolStates == After(old(toolStates), AddTools(owner, kind, amount))
      ensures added <==> amount > 0 && Target(SlotsOf(old(toolStates), owner), kind).Some?
    {
      if amount == 0 {
        return false;
      }
      var index := EnsureOwner(owner);
      var slots := toolStates[index].slots;
      var target := PickSlot(slots, kind);
      TargetIs(slots, kind);
      hide Target;
      ReadBack(old(toolStates), owner);
      if target.None? {
        return false;
      }
      var slot := GrowSlot(slots[target.value], kind, amount);
      hide Grown;
      WriteSlots(index, owner, slots[target.value := slot]);
      WriteTwice(old(toolStates), owner, slots, slots[target.value := slot]);
      added := true;
    }

    method GrowSlot(slot: Slot, kind: ToolKind, amount: nat) returns (grown: Slot)
      ensures grown == Grown(slot, kind, amount)
    {
      grown := slot;
      if !grown.active {
        grown := Slot(kind, 0, 0, true);
      }
      var sum := (grown.count + amount) % WRAP;
      grown := grown.(count := if sum < MAX_COUNT then sum else MAX_COUNT);
    }

    method WriteSlots(index: nat, owner: Vid, slots: seq<Slot>)
      requires Valid() && |slots| == SLOT_COUNT && index == IndexOfOwner(toolStates, owner) < |toolStates|
      modifies this
      ensures Valid() && toolStates == WithSlots(old(toolStates), owner, slots)
    {
      toolStates := toolStates[index := toolStates[index].(slots := slots)];
    }

    method PickSlot(slots: seq<Slot>, kind: ToolKind) returns (target: Option<nat>)
      ensures target == Target(slots, kind)
    {
      if kind == ThrowBomb {
        target := ScanKind(slots, ThrowStickyBomb);
        if target.Some? {
          return;
        }
      }
      target := ScanKind(slots, kind);
      if target.Some? {
        return;
      }
      target := PickFree(slots, kind);
    }

    method PickFree(slots: seq<Slot>, kind: ToolKind) returns (target: Option<nat>)
      ensures target == PlaceFor(slots, kind)
    {
      var preferred := Preferred(kind);
      if preferred.Some? && preferred.value < |slots| && !slots[preferred.value].active {
        return preferred;
      }
      for i := 0 to |slots|
        invariant FindFree(slots, 0) == FindFree(slots, i)
      {
        if !slots[i].active {
          return Some(i);
        }
      }
      target := None;
    }

    method ScanKind(slots: seq<Slot>, kind: ToolKind) returns (found: Option<nat>)
      ensures found == FindKind(slots, kind, 0)
    {
      for i := 0 to |slots|
        invariant FindKind(slots, kind, 0) == FindKind(slots, kind, i)
      {
        if slots[i].active && slots[i].kind == kind {
          return Some(i);
        }
      }
      found := None;
    }

    method UpgradeBombsToSticky(owner: Vid) returns (sticky: bool)
      requires Valid()
      modifies this
      ensures Valid() && toolStates == After(old(toolStates), Upgrade(owner))
      ensures sticky <==> Holds(SlotsUpgraded(SlotsOf(old(toolStates), owner)), ThrowStickyBomb)
    {
      var index := EnsureOwner(owner);
      ReadBack(old(toolStates), owner);
      var slots := toolStates[index].slots;
      ghost var start := slots;
      FindKindIs(slots, ThrowStickyBomb, 0);
      FindKindIs(slots, ThrowBomb, 0);
      FindFreeIs(slots, 0);
      StickyAfter(slots);
      hide FindKind, FindFree, Holds;
      var found := ScanKind(slots, ThrowStickyBomb);
      if found.Some? {
        return true;
      }
      var bomb := ScanKind(slots, ThrowBomb);
      if bomb.Some? {
        slots := slots[bomb.value := slots[bomb.value].(kind := ThrowStickyBomb)];
      } else {
        var place := PickFree(slots, ThrowStickyBomb);
        if place.None? {
          return false;
        }
        slots := slots[place.value := Slot(ThrowStickyBomb, 0, 0, true)];
      }
      WriteSlots(index, owner, slots);
      WriteTwice(old(toolStates), owner, start, slots);
      sticky := true;
    }

    method Step()
      requires Valid()
      modifies this
      ensures Valid() && toolStates == AllCooled(old(toolStates))
    {
      ghost var start := toolStates;
      for i := 0 to |toolStates|
        invariant |toolStates| == |start|
        invariant forall k :: 0 <= k < i ==> toolStates[k] == AllCooled(start)[k]
        invariant forall k :: i <= k < |start| ==> toolStates[k] == start[k]
      {
        var slots := toolStates[i].slots;
        for j := 0 to |slots|
          invariant |slots| == |start[i].slots|
          invariant forall k :: 0 <= k < j ==> slots[k] == Cooled(start[i].slots[k])
          invariant forall k :: j <= k < |slots| ==> slots[k] == start[i].slots[k]
        {
          if !slots[j].active {
            continue;
          }
          if slots[j].cooldown > 0 {
            slots := slots[j := slots[j].(cooldown := slots[j].cooldown - 1)];
          }
        }
        toolStates := toolStates[i := toolStates[i].(slots := slots)];
      }
    }
  }

  lemma ReadBack(tools: seq<OwnerTools>, owner: Vid)
    ensures SlotsOf(WithSlots(tools, owner, SlotsOf(tools, owner)), owner) == SlotsOf(tools, owner)
  {
    WithSlotsReads(tools, owner, SlotsOf(tools, owner), owner);
  }

  lemma WriteTwice(tools: seq<OwnerTools>, owner: Vid, a: seq<Slot>, b: seq<Slot>)
    ensures WithSlots(WithSlots(tools, owner, a), owner, b) == WithSlots(tools, owner, b)
  {
    var once := WithSlots(tools, owner, a);
    assert once[IndexOfOwner(tools, owner)].owner == owner;
    assert IndexOfOwner(once, owner) == IndexOfOwner(tools, owner);
  }

  lemma StickyAfter(slots: seq<Slot>)
    ensures Holds(SlotsUpgraded(slots), ThrowStickyBomb) <==>
            FindKind(slots, ThrowStickyBomb, 0).Some? || FindKind(slots, ThrowBomb, 0).Some?
            || PlaceFor(slots, ThrowStickyBomb).Some?
  {
    FindKindIs(slots, ThrowStickyBomb, 0);
    FindKindIs(slots, ThrowBomb, 0);
    FindFreeIs(slots, 0);
    hide FindKind, FindFree;
    var next := SlotsUpgraded(slots);
    var f, p := FindKind(slots, ThrowBomb, 0), PlaceFor(slots, ThrowStickyBomb);
    if FindKind(slots, ThrowStickyBomb, 0).None? {
      if f.Some? { assert next[f.value].kind == ThrowStickyBomb; }
      else if p.Some? { assert next[p.value].kind == ThrowStickyBomb; }
    }
  }
}
