/**
 FNV-1a, the hash of animation names (32 bits) and of gameplay content (64 bits), as
 section 2 of draft-eastlake-fnv defines it: for each byte, an exclusive or into the low
 byte of the state, then a product with an odd prime modulo the state's width.
 */
module Fnv {
  import opened Arithmetic

  type Byte = b: nat | b < 256

  const MODULUS_32: nat := 0x1_0000_0000
  const OFFSET_BASIS_32: nat := 2166136261
  const PRIME_32: nat := 16777619

  const MODULUS_64: nat := 0x1_0000_0000_0000_0000
  const OFFSET_BASIS_64: nat := 14695981039346656037
  const PRIME_64: nat := 1099511628211

  // The inverses of the primes, which exist because the primes are odd.
  const INVERSE_32: nat := 899433627
  const INVERSE_64: nat := 14886173955864302971

  // Exclusive or of the k low bits.
  function XorBits(a: nat, b: nat, k: nat): nat {
    if k == 0 then 0 else (if a % 2 == b % 2 then 0 else 1) + 2 * XorBits(a / 2, b / 2, k - 1)
  }

  function XorByte(low: nat, b: Byte): nat { XorBits(low, b, 8) }

  // hash ^= b
  function XorLow(hash: nat, b: Byte): nat {
    hash - hash % 256 + XorByte(hash % 256, b)
  }

  // hash *= prime
  function TimesPrime(hash: nat, prime: nat, modulus: nat): nat
    requires modulus > 0
  {
    (hash * prime) % modulus
  }

  function Step32(hash: nat, b: Byte): nat { TimesPrime(XorLow(hash, b), PRIME_32, MODULUS_32) }

  function Step64(hash: nat, b: Byte): nat { TimesPrime(XorLow(hash, b), PRIME_64, MODULUS_64) }

  function FoldBytes(step: (nat, Byte) -> nat, hash: nat, bytes: seq<Byte>): nat
    decreases |bytes|
  {
    if bytes == [] then hash else FoldBytes(step, step(hash, bytes[0]), bytes[1..])
  }

  lemma {:induction false} FoldAppend(step: (nat, Byte) -> nat, hash: nat, a: seq<Byte>, b: seq<Byte>)
    ensures FoldBytes(step, hash, a + b) == FoldBytes(step, FoldBytes(step, hash, a), b)
    decreases |a|
  {
    if a == [] {
      assert a + b == b;
    } else {
      assert (a + b)[1..] == a[1..] + b;
      FoldAppend(step, step(hash, a[0]), a[1..], b);
    }
  }

  // ----- a step can be undone, and tells bytes apart -----

  lemma {:induction false} XorBitsUndone(a: nat, b: nat, k: nat)
    requires a < PowerOfTwo(k)
    ensures XorBits(a, b, k) < PowerOfTwo(k)
    ensures XorBits(XorBits(a, b, k), b, k) == a
  {
    if k > 0 {
      XorBitsUndone(a / 2, b / 2, k - 1);
      var x := XorBits(a, b, k);
      assert x / 2 == XorBits(a / 2, b / 2, k - 1);
    }
  }

  lemma {:induction false} XorBitsSeparate(a: nat, b: nat, c: nat, k: nat)
    requires b < PowerOfTwo(k) && c < PowerOfTwo(k) && XorBits(a, b, k) == XorBits(a, c, k)
    ensures b == c
  {
    if k > 0 { XorBitsSeparate(a / 2, b / 2, c / 2, k - 1); }
  }

  lemma XorByteTwice(low: nat, b: Byte)
    requires low < 256
    ensures XorByte(low, b) < 256
    ensures XorByte(XorByte(low, b), b) == low
  {
    ByteBits();
    XorBitsUndone(low, b, 8);
  }

  lemma XorByteSeparates(low: nat, b: Byte, c: Byte)
    requires XorByte(low, b) == XorByte(low, c)
    ensures b == c
  {
    ByteBits();
    XorBitsSeparate(low, b, c, 8);
  }

  lemma ByteBits()
    ensures PowerOfTwo(8) == 256
  {
  }

  lemma LowByte(hash: nat, y: nat, modulus: nat)
    requires y < 256 && hash < 256 * modulus
    ensures (hash - hash % 256 + y) % 256 == y
    ensures hash - hash % 256 + y < 256 * modulus
  {
  }

  lemma XorLowUndone(hash: nat, b: Byte, modulus: nat)
    requires hash < 256 * modulus
    ensures XorLow(hash, b) < 256 * modulus && XorLow(XorLow(hash, b), b) == hash
  {
    hide XorByte;
    XorByteTwice(hash % 256, b);
    LowByte(hash, XorByte(hash % 256, b), modulus);
  }

  /** Multiplying by the prime and by its inverse is the identity modulo the width. */
  lemma TimesPrimeUndone(x: nat, p: nat, q: nat, modulus: nat, k: nat)
    requires x < modulus && p * q == k * modulus + 1
    ensures TimesPrime(TimesPrime(x, p, modulus), q, modulus) == x
  {
    var t := (x * p) / modulus;
    var y := (x * p) % modulus;
    assert x * p == modulus * t + y;
    assert y * q == x * (p * q) - modulus * (t * q) by {
      assert (x * p) * q == x * (p * q);
      assert (modulus * t + y) * q == modulus * (t * q) + y * q;
    }
    assert x * (p * q) == modulus * (x * k) + x by {
      assert x * (k * modulus + 1) == modulus * (x * k) + x;
    }
    Division(y * q, modulus, x * k - t * q, x);
  }

  // Undoing a step.
  function Unstep32(hash: nat, b: Byte): nat { XorLow(TimesPrime(hash, INVERSE_32, MODULUS_32), b) }

  function Unstep64(hash: nat, b: Byte): nat { XorLow(TimesPrime(hash, INVERSE_64, MODULUS_64), b) }

  /** Each 32-bit step is a bijection of the state. */
  lemma Step32Bijective(hash: nat, b: Byte)
    requires hash < MODULUS_32
    ensures Step32(hash, b) < MODULUS_32 && Unstep32(hash, b) < MODULUS_32
    ensures Unstep32(Step32(hash, b), b) == hash
    ensures Step32(Unstep32(hash, b), b) == hash
  {
    XorLowUndone(hash, b, 0x100_0000);
    TimesPrimeUndone(XorLow(hash, b), PRIME_32, INVERSE_32, MODULUS_32, 3513497);
    TimesPrimeUndone(hash, INVERSE_32, PRIME_32, MODULUS_32, 3513497);
    XorLowUndone(TimesPrime(hash, INVERSE_32, MODULUS_32), b, 0x100_0000);
  }

  /** Each 64-bit step is a bijection of the state. */
  lemma Step64Bijective(hash: nat, b: Byte)
    requires hash < MODULUS_64
    ensures Step64(hash, b) < MODULUS_64 && Unstep64(hash, b) < MODULUS_64
    ensures Unstep64(Step64(hash, b), b) == hash
    ensures Step64(Unstep64(hash, b), b) == hash
  {
    XorLowUndone(hash, b, 0x100_0000_0000_0000);
    TimesPrimeUndone(XorLow(hash, b), PRIME_64, INVERSE_64, MODULUS_64, 887285111055);
    TimesPrimeUndone(hash, INVERSE_64, PRIME_64, MODULUS_64, 887285111055);
    XorLowUndone(TimesPrime(hash, INVERSE_64, MODULUS_64), b, 0x100_0000_0000_0000);
  }

  lemma XorLowSeparates(hash: nat, b: Byte, c: Byte)
    requires XorLow(hash, b) == XorLow(hash, c)
    ensures b == c
  {
    XorByteSeparates(hash % 256, b, c);
  }

  // What the fold needs of a step: it maps states to states, and neither merges states nor bytes.
  ghost predicate Separating(step: (nat, Byte) -> nat, modulus: nat) {
    && (forall h: nat, b: Byte :: h < modulus ==> step(h, b) < modulus)
    && (forall h: nat, k: nat, b: Byte :: h < modulus && k < modulus && step(h, b) == step(k, b) ==> h == k)
    && (forall h: nat, b: Byte, c: Byte :: h < modulus && step(h, b) == step(h, c) ==> b == c)
  }

  lemma StepsSeparate()
    ensures Separating(Step32, MODULUS_32) && Separating(Step64, MODULUS_64)
  {
    hide XorLow, TimesPrime;
    forall h: nat, k: nat, b: Byte | h < MODULUS_32 && k < MODULUS_32 && Step32(h, b) == Step32(k, b)
      ensures h == k
    {
      Step32Bijective(h, b);
      Step32Bijective(k, b);
    }
    forall h: nat, k: nat, b: Byte | h < MODULUS_64 && k < MODULUS_64 && Step64(h, b) == Step64(k, b)
      ensures h == k
    {
      Step64Bijective(h, b);
      Step64Bijective(k, b);
    }
    forall h: nat, b: Byte | h < MODULUS_32 ensures Step32(h, b) < MODULUS_32 { Step32Bijective(h, b); }
    forall h: nat, b: Byte | h < MODULUS_64 ensures Step64(h, b) < MODULUS_64 { Step64Bijective(h, b); }
    forall h: nat, b: Byte, c: Byte | h < MODULUS_32 && Step32(h, b) == Step32(h, c) ensures b == c {
      Separated(h, b, c, PRIME_32, INVERSE_32, MODULUS_32, 3513497, 0x100_0000);
    }
    forall h: nat, b: Byte, c: Byte | h < MODULUS_64 && Step64(h, b) == Step64(h, c) ensures b == c {
      Separated(h, b, c, PRIME_64, INVERSE_64, MODULUS_64, 887285111055, 0x100_0000_0000_0000);
    }
  }

  lemma Separated(h: nat, b: Byte, c: Byte, p: nat, q: nat, modulus: nat, k: nat, high: nat)
    requires modulus == 256 * high && h < modulus && p * q == k * modulus + 1
    requires TimesPrime(XorLow(h, b), p, modulus) == TimesPrime(XorLow(h, c), p, modulus)
    ensures b == c
  {
    hide XorLow, TimesPrime;
    XorLowUndone(h, b, high);
    XorLowUndone(h, c, high);
    TimesPrimeUndone(XorLow(h, b), p, q, modulus, k);
    TimesPrimeUndone(XorLow(h, c), p, q, modulus, k);
    XorLowSeparates(h, b, c);
  }

  /** Folding the same bytes never merges two states. */
  lemma {:induction false} FoldInjective(step: (nat, Byte) -> nat, modulus: nat, h: nat, k: nat, bytes: seq<Byte>)
    requires Separating(step, modulus) && h < modulus && k < modulus
    ensures FoldBytes(step, h, bytes) < modulus
    ensures FoldBytes(step, h, bytes) == FoldBytes(step, k, bytes) <==> h == k
    decreases |bytes|
  {
    if bytes != [] {
      var b := bytes[0];
      assert step(h, b) < modulus && step(k, b) < modulus;
      FoldInjective(step, modulus, step(h, b), step(k, b), bytes[1..]);
    }
  }

  /** Equal-length strings that differ in exactly one byte never collide. */
  lemma OneByteApart(
    step: (nat, Byte) -> nat, modulus: nat, h: nat, before: seq<Byte>, b: Byte, c: Byte, after: seq<Byte>)
    requires Separating(step, modulus) && h < modulus
    ensures FoldBytes(step, h, before + [b] + after) == FoldBytes(step, h, before + [c] + after) <==> b == c
  {
    var mid := FoldBytes(step, h, before);
    FoldInjective(step, modulus, h, h, before);
    assert before + [b] + after == before + ([b] + after);
    assert before + [c] + after == before + ([c] + after);
    FoldAppend(step, h, before, [b] + after);
    FoldAppend(step, h, before, [c] + after);
    assert ([b] + after)[1..] == after && ([c] + after)[1..] == after;
    FoldInjective(step, modulus, step(mid, b), step(mid, c), after);
  }

  /** For both hashes of the game. */
  lemma OneByteNeverCollides(before: seq<Byte>, b: Byte, c: Byte, after: seq<Byte>)
    requires b != c
    ensures FoldBytes(Step32, OFFSET_BASIS_32, before + [b] + after) !=
            FoldBytes(Step32, OFFSET_BASIS_32, before + [c] + after)
    ensures FoldBytes(Step64, OFFSET_BASIS_64, before + [b] + after) !=
            FoldBytes(Step64, OFFSET_BASIS_64, before + [c] + after)
  {
    StepsSeparate();
    OneByteApart(Step32, MODULUS_32, OFFSET_BASIS_32, before, b, c, after);
    OneByteApart(Step64, MODULUS_64, OFFSET_BASIS_64, before, b, c, after);
  }

  /** The id of an animation name. */
  method HashAFrameId(text: seq<Byte>) returns (hash: nat)
    ensures hash == FoldBytes(Step32, OFFSET_BASIS_32, text)
  {
    hash := OFFSET_BASIS_32;
    for i := 0 to |text|
      invariant FoldBytes(Step32, hash, text[i..]) == FoldBytes(Step32, OFFSET_BASIS_32, text)
    {
      assert text[i..][1..] == text[i + 1..];
      hash := XorLow(hash, text[i]);
      hash := TimesPrime(hash, PRIME_32, MODULUS_32);
    }
  }
}
