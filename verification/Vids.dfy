/** Versioned handles: an id and a 32-bit version that wraps. */
module Vids {
  const WRAP: nat := 0x1_0000_0000
  const NO_ID: nat := 0xFFFF_FFFF

  datatype Vid = Vid(id: nat, version: nat)

  function Bump(version: nat): nat { (version + 1) % WRAP }

  function Advanced(version: nat, k: nat): nat { (version + k) % WRAP }

  // Counting on from a wrapped counter.
  lemma CountsOn(version: nat, bumped: bool, k: nat)
    ensures Advanced(if bumped then Bump(version) else version, k) == Advanced(version, (if bumped then 1 else 0) + k)
  {
  }

  lemma WrapsOnlyAround(g: nat, k: nat)
    requires g < WRAP
    ensures Advanced(g, k) == g <==> k % WRAP == 0
  {
  }
}
