/**
 * Machine words and bytes of the emulated ARM7TDMI, with the byte-level
 * helpers the engine's utilities provide (byte reversal, 24-bit sign extension).
 * Words are unbounded integers restricted to 32 bits; 32-bit wrap-around is
 * written out with Wrap wherever address arithmetic can overflow.
 */
module Words {

  /** A 32-bit unsigned word, as held by registers, cpsr and memory words. */
  type Word = x: int | 0 <= x < 0x1_0000_0000

  /** One byte of the memory unit. */
  type Byte = x: int | 0 <= x < 0x100

  /** Reduction modulo 2^32: the wrap-around of 32-bit arithmetic. */
  function Wrap(x: int): (w: Word)
    ensures (x - w) % 0x1_0000_0000 == 0
    ensures 0 <= x < 0x1_0000_0000 ==> w == x
  {
    x % 0x1_0000_0000
  }

  /** Byte k of a word, byte 0 being the least significant (bits 7-0). */
  function ByteOf(w: Word, k: nat): Byte
    requires k < 4
  {
    if k == 0 then w % 0x100
    else if k == 1 then (w / 0x100) % 0x100
    else if k == 2 then (w / 0x1_0000) % 0x100
    else w / 0x100_0000
  }

  /** The word whose bytes, least significant first, are b0, b1, b2, b3. */
  function FromBytes(b0: Byte, b1: Byte, b2: Byte, b3: Byte): Word
  {
    b0 + 0x100 * b1 + 0x1_0000 * b2 + 0x100_0000 * b3
  }

  /** FromBytes places each byte in its own lane. */
  lemma ByteOfFromBytes(b0: Byte, b1: Byte, b2: Byte, b3: Byte)
    ensures ByteOf(FromBytes(b0, b1, b2, b3), 0) == b0
    ensures ByteOf(FromBytes(b0, b1, b2, b3), 1) == b1
    ensures ByteOf(FromBytes(b0, b1, b2, b3), 2) == b2
    ensures ByteOf(FromBytes(b0, b1, b2, b3), 3) == b3
  {
    var w := FromBytes(b0, b1, b2, b3);
    assert w / 0x100 == b1 + 0x100 * b2 + 0x1_0000 * b3;
    assert w / 0x1_0000 == b2 + 0x100 * b3;
    assert w / 0x100_0000 == b3;
  }

  /** A word is determined by its four bytes. */
  lemma FromBytesOfBytes(w: Word)
    ensures FromBytes(ByteOf(w, 0), ByteOf(w, 1), ByteOf(w, 2), ByteOf(w, 3)) == w
  {
    var q1 := w / 0x100;
    var q2 := q1 / 0x100;
    var q3 := q2 / 0x100;
    assert w == w % 0x100 + 0x100 * q1;
    assert q1 == q1 % 0x100 + 0x100 * q2;
    assert q2 == q2 % 0x100 + 0x100 * q3;
    assert q2 == w / 0x1_0000;
    assert q3 == w / 0x100_0000;
  }

  /** Utils.reverseBytes: the word with its four bytes in the opposite order. */
  function ReverseBytes(w: Word): (r: Word)
    ensures ByteOf(r, 0) == ByteOf(w, 3) && ByteOf(r, 1) == ByteOf(w, 2)
    ensures ByteOf(r, 2) == ByteOf(w, 1) && ByteOf(r, 3) == ByteOf(w, 0)
  {
    ByteOfFromBytes(ByteOf(w, 3), ByteOf(w, 2), ByteOf(w, 1), ByteOf(w, 0));
    FromBytes(ByteOf(w, 3), ByteOf(w, 2), ByteOf(w, 1), ByteOf(w, 0))
  }

  /** Reversing the bytes twice gives the word back. */
  lemma ReverseBytesInvolutive(w: Word)
    ensures ReverseBytes(ReverseBytes(w)) == w
  {
    var r := ReverseBytes(w);
    var rr := ReverseBytes(r);
    ByteOfFromBytes(ByteOf(r, 3), ByteOf(r, 2), ByteOf(r, 1), ByteOf(r, 0));
    FromBytesOfBytes(w);
    assert rr == FromBytes(ByteOf(w, 0), ByteOf(w, 1), ByteOf(w, 2), ByteOf(w, 3));
  }

  /** ReverseBytes on a word given by its bytes swaps the bytes end for end. */
  lemma ReverseBytesOfFromBytes(b0: Byte, b1: Byte, b2: Byte, b3: Byte)
    ensures ReverseBytes(FromBytes(b0, b1, b2, b3)) == FromBytes(b3, b2, b1, b0)
  {
    ByteOfFromBytes(b0, b1, b2, b3);
  }

  /**
   * Utils.toSigned as the branch-offset computation uses it: the 24-bit
   * two's-complement value of a 24-bit field. The result is the unique
   * number in [-2^23, 2^23) congruent to the field modulo 2^24.
   */
  function SignExtend24(x: int): (s: int)
    requires 0 <= x < 0x100_0000
    ensures -0x80_0000 <= s < 0x80_0000
    ensures (x - s) % 0x100_0000 == 0
    ensures s < 0 <==> x >= 0x80_0000
  {
    if x < 0x80_0000 then x else x - 0x100_0000
  }

  /** The two results of SignExtend24's contract pin the value down. */
  lemma SignExtend24Unique(x: int, s: int)
    requires 0 <= x < 0x100_0000
    requires -0x80_0000 <= s < 0x80_0000 && (x - s) % 0x100_0000 == 0
    ensures s == SignExtend24(x)
  {
    var d := (x - s) / 0x100_0000;
    assert x - s == 0x100_0000 * d;
    assert -0x80_0000 < x - s < 0x180_0000;
    assert d == 0 || d == 1;
  }
}
