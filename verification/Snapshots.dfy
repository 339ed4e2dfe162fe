/** Saved states by frame, and the earliest frame a rollback has been asked for. */
module Snapshots {
  import opened Options

  datatype Snapshot<S> = Snapshot(frame: nat, state: S)

  // One per frame; the first match wins.
  function FindSnapshot<S>(snapshots: seq<Snapshot<S>>, frame: nat): Option<S> {
    if snapshots == [] then None
    else if snapshots[0].frame == frame then Some(snapshots[0].state)
    else FindSnapshot(snapshots[1..], frame)
  }

  function WithSnapshot<S>(snapshots: seq<Snapshot<S>>, frame: nat, state: S): seq<Snapshot<S>> {
    if snapshots == [] then [Snapshot(frame, state)]
    else if snapshots[0].frame == frame then [Snapshot(frame, state)] + snapshots[1..]
    else [snapshots[0]] + WithSnapshot(snapshots[1..], frame, state)
  }

  lemma {:induction false} FindSaved<S>(snapshots: seq<Snapshot<S>>, frame: nat, state: S, g: nat)
    ensures FindSnapshot(WithSnapshot(snapshots, frame, state), g) ==
            if g == frame then Some(state) else FindSnapshot(snapshots, g)
  {
    if snapshots != [] && snapshots[0].frame != frame {
      FindSaved(snapshots[1..], frame, state, g);
    }
  }

  lemma {:induction false} SaveSkips<S>(snapshots: seq<Snapshot<S>>, frame: nat, state: S, i: nat)
    requires i <= |snapshots| && forall j :: 0 <= j < i ==> snapshots[j].frame != frame
    ensures WithSnapshot(snapshots, frame, state) == snapshots[..i] + WithSnapshot(snapshots[i..], frame, state)
  {
    if i > 0 {
      SaveSkips(snapshots[1..], frame, state, i - 1);
      assert snapshots[1..][i - 1..] == snapshots[i..];
      assert snapshots[..i] == [snapshots[0]] + snapshots[1..][..i - 1];
    }
  }

  method FindRollbackSnapshot<S>(snapshots: seq<Snapshot<S>>, frame: nat) returns (found: Option<S>)
    ensures found == FindSnapshot(snapshots, frame)
  {
    for i := 0 to |snapshots|
      invariant FindSnapshot(snapshots[i..], frame) == FindSnapshot(snapshots, frame)
    {
      assert snapshots[i..][1..] == snapshots[i + 1..];
      if snapshots[i].frame == frame {
        return Some(snapshots[i].state);
      }
    }
    found := None;
  }

  method SaveRollbackSnapshot<S>(snapshots: seq<Snapshot<S>>, frame: nat, state: S)
    returns (saved: seq<Snapshot<S>>)
    ensures saved == WithSnapshot(snapshots, frame, state)
  {
    for i := 0 to |snapshots|
      invariant forall j :: 0 <= j < i ==> snapshots[j].frame != frame
    {
      if snapshots[i].frame == frame {
        SaveSkips(snapshots, frame, state, i);
        return snapshots[i := Snapshot(frame, state)];
      }
    }
    SaveSkips(snapshots, frame, state, |snapshots|);
    saved := snapshots + [Snapshot(frame, state)];
  }

  // How a store updates the pending rollback frame.
  function Request(pending: Option<nat>, mismatch: Option<nat>, next: nat): Option<nat> {
    if mismatch.Some? && mismatch.value < next && (pending.None? || mismatch.value < pending.value)
    then mismatch else pending
  }
}
