/**
 The game tick, seen from outside: a deterministic function of the state and the frame's
 inputs. Everything the network layer promises is about folds of that function.
 */
module Simulation {
  import opened InputFrames

  // Inputs of the two players of the harness, player 1 first.
  datatype Inputs = Inputs(p1: InputFrame, p2: InputFrame)

  type Script = seq<Inputs>

  function ScriptAt(script: Script, frame: nat): Inputs {
    if frame < |script| then script[frame] else Inputs(NEUTRAL, NEUTRAL)
  }

  // Input of a player in the script; the script knows players 1 and 2.
  function ScriptInput(script: Script, playerId: nat, frame: nat): InputFrame {
    if playerId == 1 then ScriptAt(script, frame).p1
    else if playerId == 2 then ScriptAt(script, frame).p2
    else NEUTRAL
  }

  // The state after stepping frames 0 to n - 1 on the given inputs, in order.
  function Run<S>(tick: (S, Inputs) -> S, init: S, inputs: nat -> Inputs, n: nat): S {
    if n == 0 then init else tick(Run(tick, init, inputs, n - 1), inputs(n - 1))
  }

  function Scripted(script: Script): nat -> Inputs {
    (f: nat) => ScriptAt(script, f)
  }

  // The no-latency run: every frame steps on the script's own inputs.
  function Truth<S>(tick: (S, Inputs) -> S, init: S, script: Script, n: nat): S {
    Run(tick, init, Scripted(script), n)
  }

  lemma {:induction false} RunDependsOnPrefix<S>(
    tick: (S, Inputs) -> S, init: S, a: nat -> Inputs, b: nat -> Inputs, n: nat)
    requires forall f: nat :: f < n ==> a(f) == b(f)
    ensures Run(tick, init, a, n) == Run(tick, init, b, n)
  {
    if n > 0 { RunDependsOnPrefix(tick, init, a, b, n - 1); }
  }
}
