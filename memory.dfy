/**
 * The memory unit: a flat store of bytes. writeWord lays a word down most
 * significant byte first; readWord assembles the four bytes least significant
 * first. A word written and read back at one address therefore comes back
 * byte-reversed, which lets a caller write an instruction's natural hex
 * spelling and have the fetch path see the little-endian word.
 */
module Memory {
  import opened Words

  /** A word access at address lies wholly inside the store. */
  predicate InBounds(mem: seq<Byte>, address: int)
  {
    0 <= address && address + 4 <= |mem|
  }

  /** readWord: the four bytes at address, the first one least significant. */
  function LoadWord(mem: seq<Byte>, address: int): (w: Word)
    requires InBounds(mem, address)
    ensures ByteOf(w, 0) == mem[address] && ByteOf(w, 1) == mem[address + 1]
    ensures ByteOf(w, 2) == mem[address + 2] && ByteOf(w, 3) == mem[address + 3]
  {
    ByteOfFromBytes(mem[address], mem[address + 1], mem[address + 2], mem[address + 3]);
    FromBytes(mem[address], mem[address + 1], mem[address + 2], mem[address + 3])
  }

  /** writeWord: the store with value's bytes at address, the most significant first. */
  function StoreWord(mem: seq<Byte>, address: int, value: Word): (m: seq<Byte>)
    requires InBounds(mem, address)
    ensures |m| == |mem|
    ensures m[address] == ByteOf(value, 3) && m[address + 1] == ByteOf(value, 2)
    ensures m[address + 2] == ByteOf(value, 1) && m[address + 3] == ByteOf(value, 0)
  {
    mem[address := ByteOf(value, 3)][address + 1 := ByteOf(value, 2)]
       [address + 2 := ByteOf(value, 1)][address + 3 := ByteOf(value, 0)]
  }

  /** readWord after writeWord at the same address returns the byte-reversed word. */
  lemma LoadAfterStore(mem: seq<Byte>, address: int, value: Word)
    requires InBounds(mem, address)
    ensures LoadWord(StoreWord(mem, address, value), address) == ReverseBytes(value)
  {
  }

  /**
   * Writing the byte-reversed spelling of an instruction makes the fetch path
   * read the instruction itself: writeWord(0x180000ea, 8) is fetched as 0xea000018.
   */
  lemma FetchSeesReversedSpelling(mem: seq<Byte>, address: int, word: Word)
    requires InBounds(mem, address)
    ensures LoadWord(StoreWord(mem, address, ReverseBytes(word)), address) == word
  {
    LoadAfterStore(mem, address, ReverseBytes(word));
    ReverseBytesInvolutive(word);
  }

  /** A write changes no byte outside the four it stores. */
  lemma StoreWordFrame(mem: seq<Byte>, address: int, value: Word)
    requires InBounds(mem, address)
    ensures forall i :: 0 <= i < |mem| && (i < address || address + 4 <= i) ==>
      StoreWord(mem, address, value)[i] == mem[i]
  {
  }

  /** A write leaves every word that does not overlap it as it was. */
  lemma LoadAfterStoreElsewhere(mem: seq<Byte>, address: int, value: Word, other: int)
    requires InBounds(mem, address) && InBounds(mem, other)
    requires other + 4 <= address || address + 4 <= other
    ensures LoadWord(StoreWord(mem, address, value), other) == LoadWord(mem, other)
  {
  }

  /** The contents of a freshly made memory unit of the given size. */
  function Zeroes(size: nat): (mem: seq<Byte>)
    ensures |mem| == size
  {
    seq(size, _ => 0)
  }

  /** Every word of a fresh memory unit reads as zero. */
  lemma LoadZeroes(size: nat, address: int)
    requires InBounds(Zeroes(size), address)
    ensures LoadWord(Zeroes(size), address) == 0
  {
  }

  /** The memory unit object: a fixed-size byte array, zero when created. */
  class Mmu {
    var bytes: array<Byte>

    constructor (size: nat)
      ensures fresh(bytes) && bytes[..] == Zeroes(size)
    {
      bytes := new Byte[size](_ => 0);
    }

    /** writeWord(value, address). */
    method WriteWord(value: Word, address: Word)
      requires InBounds(bytes[..], address)
      modifies bytes
      ensures bytes[..] == StoreWord(old(bytes[..]), address, value)
    {
      bytes[address] := ByteOf(value, 3);
      bytes[address + 1] := ByteOf(value, 2);
      bytes[address + 2] := ByteOf(value, 1);
      bytes[address + 3] := ByteOf(value, 0);
    }

    /** readWord(address). */
    method ReadWord(address: Word) returns (w: Word)
      requires InBounds(bytes[..], address)
      ensures w == LoadWord(bytes[..], address)
    {
      w := FromBytes(bytes[address], bytes[address + 1], bytes[address + 2], bytes[address + 3]);
    }
  }
}
