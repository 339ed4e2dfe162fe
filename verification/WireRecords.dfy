/** The wire entry of one buffered record: the packed buttons share a word with two marks. */
module WireRecords {
  import opened Arithmetic
  import opened InputFrames
  import opened InputBuffer

  datatype Entry = Entry(playerId: nat, frame: nat, sequence: nat, inputFlags: nat, mouseX: nat, mouseY: nat)

  // The digits of the flag word: the buttons, unused bits, then the two marks.
  function EntryDigits(record: Record): seq<bool> {
    Buttons(record.input) + seq(ARBITRATED_BIT - BUTTON_COUNT, _ => false) +
    [record.arbitratedMissing, record.canonical]
  }

  function MakeEntry(record: Record): Entry {
    Entry(record.playerId, record.frame, record.sequence, WordOf(EntryDigits(record)),
          record.input.mouseX, record.input.mouseY)
  }

  // The receiver masks the two marks off before unpacking, which reads button digits only.
  function MakeRecord(entry: Entry): Record {
    Record(entry.playerId, entry.frame, entry.sequence,
           UnpackInputFrame(entry.inputFlags, entry.mouseX, entry.mouseY),
           false,
           HasFlag(entry.inputFlags, CANONICAL_BIT),
           HasFlag(entry.inputFlags, ARBITRATED_BIT))
  }

  lemma {:induction false} WordBound(digits: seq<bool>)
    ensures WordOf(digits) < PowerOfTwo(|digits|)
  {
    if digits != [] { WordBound(digits[1..]); }
  }

  /** Everything but the prediction mark survives the wire, and the word fits 32 bits. */
  lemma EntryRoundTrip(record: Record)
    ensures MakeRecord(MakeEntry(record)) == record.(predicted := false)
    ensures MakeEntry(record).inputFlags < PowerOfTwo(32)
  {
    var digits := EntryDigits(record);
    var word := WordOf(digits);
    forall k | 0 <= k < BUTTON_COUNT
      ensures HasFlag(word, k) == Buttons(record.input)[k]
    {
      WordDigit(digits, k);
    }
    UnpackDigits(word, record.input);
    WordDigit(digits, ARBITRATED_BIT);
    WordDigit(digits, CANONICAL_BIT);
    WordBound(digits);
  }
}
