/**
 One tick of one player's buttons and pointer, and the packed word used on the wire and
 in replay files.

 A flag word is a natural number. Setting a flag that is clear and reading a flag are
 given by binary digits: button k of the source's constants (kInputLeft is 0,
 kInputRegenerateLevel is 18) is digit k of the word.
 */
module InputFrames {

  datatype InputFrame = InputFrame(
    left: bool, right: bool, up: bool, down: bool,
    jump: bool, run: bool, useButton: bool, equipButton: bool, pickUpDrop: bool,
    stop: bool, bomb: bool, rope: bool, attack: bool, buyButton: bool,
    emoteUp: bool, emoteDown: bool, quit: bool, toggleCollisionBoxes: bool, regenerateLevel: bool,
    mouseX: nat, mouseY: nat)

  const NEUTRAL := InputFrame(
    false, false, false, false, false, false, false, false, false, false,
    false, false, false, false, false, false, false, false, false, 0, 0)

  const BUTTON_COUNT := 19
  const ARBITRATED_BIT := 30
  const CANONICAL_BIT := 31

  function WordOf(digits: seq<bool>): nat {
    if digits == [] then 0 else (if digits[0] then 1 else 0) + 2 * WordOf(digits[1..])
  }

  predicate HasFlag(word: nat, k: nat) {
    if k == 0 then word % 2 == 1 else HasFlag(word / 2, k - 1)
  }

  lemma {:induction false} WordDigit(digits: seq<bool>, k: nat)
    ensures HasFlag(WordOf(digits), k) == (k < |digits| && digits[k])
  {
    if digits == [] {
      if k > 0 { WordDigit(digits, k - 1); }
    } else if k > 0 {
      WordDigit(digits[1..], k - 1);
    }
  }

  predicate Button(input: InputFrame, k: nat)
    requires k < BUTTON_COUNT
  {
    if k == 0 then input.left
    else if k == 1 then input.right
    else if k == 2 then input.up
    else if k == 3 then input.down
    else if k == 4 then input.jump
    else if k == 5 then input.run
    else if k == 6 then input.useButton
    else if k == 7 then input.equipButton
    else if k == 8 then input.pickUpDrop
    else if k == 9 then input.stop
    else if k == 10 then input.bomb
    else if k == 11 then input.rope
    else if k == 12 then input.attack
    else if k == 13 then input.buyButton
    else if k == 14 then input.emoteUp
    else if k == 15 then input.emoteDown
    else if k == 16 then input.quit
    else if k == 17 then input.toggleCollisionBoxes
    else input.regenerateLevel
  }

  function Buttons(input: InputFrame): seq<bool> {
    seq(BUTTON_COUNT, k requires 0 <= k < BUTTON_COUNT => Button(input, k))
  }

  function PackInputFrame(input: InputFrame): nat {
    WordOf(Buttons(input))
  }

  function FromButtons(b: seq<bool>, mouseX: nat, mouseY: nat): InputFrame
    requires |b| == BUTTON_COUNT
  {
    InputFrame(b[0], b[1], b[2], b[3], b[4], b[5], b[6], b[7], b[8], b[9],
               b[10], b[11], b[12], b[13], b[14], b[15], b[16], b[17], b[18], mouseX, mouseY)
  }

  function UnpackInputFrame(flags: nat, mouseX: nat, mouseY: nat): InputFrame {
    FromButtons(seq(BUTTON_COUNT, k requires 0 <= k => HasFlag(flags, k)), mouseX, mouseY)
  }

  /** Decoding depends on the button digits only. */
  lemma UnpackDigits(flags: nat, input: InputFrame)
    requires forall k :: 0 <= k < BUTTON_COUNT ==> HasFlag(flags, k) == Buttons(input)[k]
    ensures UnpackInputFrame(flags, input.mouseX, input.mouseY) == input
  {
    assert seq(BUTTON_COUNT, k requires 0 <= k => HasFlag(flags, k)) == Buttons(input);
  }

  /** Packing loses nothing of a frame. */
  lemma UnpackPack(input: InputFrame)
    ensures UnpackInputFrame(PackInputFrame(input), input.mouseX, input.mouseY) == input
  {
    forall k | 0 <= k < BUTTON_COUNT
      ensures HasFlag(PackInputFrame(input), k) == Buttons(input)[k]
    {
      WordDigit(Buttons(input), k);
    }
    UnpackDigits(PackInputFrame(input), input);
  }

  predicate InputFramesEqual(lhs: InputFrame, rhs: InputFrame) {
    && PackInputFrame(lhs) == PackInputFrame(rhs)
    && lhs.mouseX == rhs.mouseX
    && lhs.mouseY == rhs.mouseY
  }

  /** The packed comparison the buffer makes is equality of the whole frame. */
  lemma InputFramesEqualIsEquality(lhs: InputFrame, rhs: InputFrame)
    ensures InputFramesEqual(lhs, rhs) <==> lhs == rhs
  {
    UnpackPack(lhs);
    UnpackPack(rhs);
  }
}
