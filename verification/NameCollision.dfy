/** Two names with one hash, and the database in which a lookup by hash finds the wrong one. */
module NameCollision {
  import opened Options
  import opened Fnv
  import opened ByteStrings
  import opened AnimationDb

  // The bytes of "zinke" and "altarage".
  const ZINKE: Bytes := [122, 105, 110, 107, 101]
  const ALTARAGE: Bytes := [97, 108, 116, 97, 114, 97, 103, 101]

  const COMMON_ID: nat := 0xe460d8b6

  // The states of the hash after each byte.
  const AFTER_ZINKE: seq<nat> := [2166136261, 4278997933, 1147657612, 2441235142, 3172699735, 3831552182]
  const AFTER_ALTARAGE: seq<nat> :=
    [2166136261, 3826002220, 1059385280, 455432284, 4173981703, 450424879, 2441235146, 3172699735, 3831552182]

  // Folding from the k-th state on.
  lemma {:induction false} FoldOn(bytes: Bytes, states: seq<nat>, k: nat)
    requires |states| == |bytes| + 1 && k <= |bytes|
    requires forall i :: 0 <= i < |bytes| ==> Step32(states[i], bytes[i]) == states[i + 1]
    ensures FoldBytes(Step32, states[k], bytes[k..]) == states[|bytes|]
    decreases |bytes| - k
  {
    if k < |bytes| {
      FoldOn(bytes, states, k + 1);
      hide Step32;
      assert bytes[k..][1..] == bytes[k + 1..];
    }
  }

  // The k high bits of two bytes and of their exclusive or, one bit after the other.
  lemma Bit(a: nat, b: nat, k: nat, x: nat)
    requires k > 0 && (if k == 1 then x / 2 == 0 else XorBits(a / 2, b / 2, k - 1) == x / 2)
    requires x % 2 == 1 <==> a % 2 != b % 2
    ensures XorBits(a, b, k) == x
  {
  }

  // One step, with the low byte of the state, its exclusive or, and the next state given.
  lemma Stepped(hash: nat, b: Byte, low: nat, x: nat, next: nat)
    requires hash % 256 == low && XorBits(low, b, 8) == x && ((hash - low + x) * PRIME_32) % MODULUS_32 == next
    ensures Step32(hash, b) == next
  {
  }

  lemma StepsOfZinke()
    ensures forall i :: 0 <= i < |ZINKE| ==> Step32(AFTER_ZINKE[i], ZINKE[i]) == AFTER_ZINKE[i + 1]
  {
    hide Step32;
    StepsOfZin();
    StepsOfKe();
  }

  lemma StepsOfZin()
    ensures forall i :: 0 <= i < 3 ==> Step32(AFTER_ZINKE[i], ZINKE[i]) == AFTER_ZINKE[i + 1]
  {
    hide Step32, XorBits;
    Bit(1, 0, 1, 1); Bit(3, 1, 2, 2); Bit(6, 3, 3, 5); Bit(12, 7, 4, 11);
    Bit(24, 15, 5, 23); Bit(49, 30, 6, 47); Bit(98, 61, 7, 95); Bit(197, 122, 8, 191);
    Stepped(2166136261, 122, 197, 191, 4278997933);
    Bit(1, 0, 1, 1); Bit(2, 1, 2, 3); Bit(5, 3, 3, 6); Bit(10, 6, 4, 12);
    Bit(21, 13, 5, 24); Bit(43, 26, 6, 49); Bit(86, 52, 7, 98); Bit(173, 105, 8, 196);
    Stepped(4278997933, 105, 173, 196, 1147657612);
    Bit(1, 0, 1, 1); Bit(2, 1, 2, 3); Bit(4, 3, 3, 7); Bit(8, 6, 4, 14);
    Bit(17, 13, 5, 28); Bit(35, 27, 6, 56); Bit(70, 55, 7, 113); Bit(140, 110, 8, 226);
    Stepped(1147657612, 110, 140, 226, 2441235142);
  }

  lemma StepsOfKe()
    ensures forall i :: 3 <= i < |ZINKE| ==> Step32(AFTER_ZINKE[i], ZINKE[i]) == AFTER_ZINKE[i + 1]
  {
    hide Step32, XorBits;
    Bit(1, 0, 1, 1); Bit(3, 1, 2, 2); Bit(6, 3, 3, 5); Bit(12, 6, 4, 10);
    Bit(24, 13, 5, 21); Bit(49, 26, 6, 43); Bit(99, 53, 7, 86); Bit(198, 107, 8, 173);
    Stepped(2441235142, 107, 198, 173, 3172699735);
    Bit(0, 0, 1, 0); Bit(1, 1, 2, 0); Bit(2, 3, 3, 1); Bit(5, 6, 4, 3);
    Bit(10, 12, 5, 6); Bit(21, 25, 6, 12); Bit(43, 50, 7, 25); Bit(87, 101, 8, 50);
    Stepped(3172699735, 101, 87, 50, 3831552182);
  }

  lemma StepsOfAltarage()
    ensures forall i :: 0 <= i < |ALTARAGE| ==> Step32(AFTER_ALTARAGE[i], ALTARAGE[i]) == AFTER_ALTARAGE[i + 1]
  {
    hide Step32;
    StepsOfAlta();
    StepsOfRage();
  }

  lemma StepsOfAlta()
    ensures forall i :: 0 <= i < 4 ==> Step32(AFTER_ALTARAGE[i], ALTARAGE[i]) == AFTER_ALTARAGE[i + 1]
  {
    hide Step32, XorBits;
    Bit(1, 0, 1, 1); Bit(3, 1, 2, 2); Bit(6, 3, 3, 5); Bit(12, 6, 4, 10);
    Bit(24, 12, 5, 20); Bit(49, 24, 6, 41); Bit(98, 48, 7, 82); Bit(197, 97, 8, 164);
    Stepped(2166136261, 97, 197, 164, 3826002220);
    Bit(0, 0, 1, 0); Bit(0, 1, 2, 1); Bit(1, 3, 3, 2); Bit(2, 6, 4, 4);
    Bit(5, 13, 5, 8); Bit(11, 27, 6, 16); Bit(22, 54, 7, 32); Bit(44, 108, 8, 64);
    Stepped(3826002220, 108, 44, 64, 1059385280);
    Bit(1, 0, 1, 1); Bit(3, 1, 2, 2); Bit(6, 3, 3, 5); Bit(12, 7, 4, 11);
    Bit(24, 14, 5, 22); Bit(48, 29, 6, 45); Bit(96, 58, 7, 90); Bit(192, 116, 8, 180);
    Stepped(1059385280, 116, 192, 180, 455432284);
    Bit(0, 0, 1, 0); Bit(1, 1, 2, 0); Bit(2, 3, 3, 1); Bit(5, 6, 4, 3);
    Bit(11, 12, 5, 7); Bit(23, 24, 6, 15); Bit(46, 48, 7, 30); Bit(92, 97, 8, 61);
    Stepped(455432284, 97, 92, 61, 4173981703);
  }

  lemma StepsOfRage()
    ensures forall i :: 4 <= i < |ALTARAGE| ==> Step32(AFTER_ALTARAGE[i], ALTARAGE[i]) == AFTER_ALTARAGE[i + 1]
  {
    hide Step32, XorBits;
    Bit(0, 0, 1, 0); Bit(0, 1, 2, 1); Bit(0, 3, 3, 3); Bit(0, 7, 4, 7);
    Bit(0, 14, 5, 14); Bit(1, 28, 6, 29); Bit(3, 57, 7, 58); Bit(7, 114, 8, 117);
    Stepped(4173981703, 114, 7, 117, 450424879);
    Bit(0, 0, 1, 0); Bit(0, 1, 2, 1); Bit(1, 3, 3, 2); Bit(2, 6, 4, 4);
    Bit(5, 12, 5, 9); Bit(11, 24, 6, 19); Bit(23, 48, 7, 39); Bit(47, 97, 8, 78);
    Stepped(450424879, 97, 47, 78, 2441235146);
    Bit(1, 0, 1, 1); Bit(3, 1, 2, 2); Bit(6, 3, 3, 5); Bit(12, 6, 4, 10);
    Bit(25, 12, 5, 21); Bit(50, 25, 6, 43); Bit(101, 51, 7, 86); Bit(202, 103, 8, 173);
    Stepped(2441235146, 103, 202, 173, 3172699735);
    Bit(0, 0, 1, 0); Bit(1, 1, 2, 0); Bit(2, 3, 3, 1); Bit(5, 6, 4, 3);
    Bit(10, 12, 5, 6); Bit(21, 25, 6, 12); Bit(43, 50, 7, 25); Bit(87, 101, 8, 50);
    Stepped(3172699735, 101, 87, 50, 3831552182);
  }

  lemma OneId()
    ensures Id(ZINKE) == Id(ALTARAGE) == COMMON_ID && ZINKE != ALTARAGE
  {
    StepsOfZinke();
    StepsOfAltarage();
    hide Step32, FoldBytes;
    FoldOn(ZINKE, AFTER_ZINKE, 0);
    FoldOn(ALTARAGE, AFTER_ALTARAGE, 0);
    assert ZINKE[0..] == ZINKE && ALTARAGE[0..] == ALTARAGE;
    assert ZINKE[0] != ALTARAGE[0];
  }

  // A database of one frame.
  const SQUARE := Rect(0, 0, 1, 1)
  const RAW := Raw([97], ZINKE, 0, SQUARE, 1, None, None, false)
  const ONLY := Frame(COMMON_ID, 0, [97], ZINKE, 0, 1, SQUARE, SQUARE, SQUARE, false)
  const DB := Db([[97]], [ONLY], [Anim(COMMON_ID, ZINKE, false, [0])], map[ZINKE := 0], map[COMMON_ID := 0])

  /**
   The right database of an acceptable frame, in which the lookup by hash finds another animation
   than the lookup by name.
   */
  lemma LookupsDiffer()
    ensures Acceptable([RAW]) && DbRight([RAW], DB)
    ensures ScanNames(DB.anims, ALTARAGE) == None
    ensures ScanIds(DB.anims, Id(ALTARAGE)).Some? && ScanIds(DB.anims, Id(ALTARAGE)).value.name == ZINKE
  {
    OneId();
    hide Id;
    assert Interned([RAW]) == [[97]] by { assert [RAW][..0] == []; }
  }
}
