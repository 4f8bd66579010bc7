/**
 * The decoder: a pure map from a fetched word (with the address it came from
 * and a snapshot of the sixteen registers) to a decoded instruction. A decoded
 * instruction carries operand VALUES copied from the registers at decode time,
 * not register numbers.
 *
 * Encodings recognised (ARM Architecture Reference Manual, ARMv4T, chapter A4):
 *   - the all-zero word: nop;
 *   - CMP Rn, #imm with condition AL and a zero rotate field: 0xE35n0iii's
 *     pattern, bits 31-20 = 0xE35, bits 11-8 = 0;
 *   - B with condition AL: bits 31-24 = 0xEA, a signed 24-bit word offset
 *     in bits 23-0.
 * Every other word decodes to Unknown, carrying the word.
 */
module Decoder {
  import opened Words

  /** The decoded slot: ['nop'], ['cmp', lhsValue, imm], ['b', target], or an unsupported word. */
  datatype Instr = Nop | Cmp(lhs: Word, imm: Word) | B(target: Word) | Unknown(word: Word)

  /** Bits 19-16: the first-operand register of a data-processing instruction. */
  function RnField(w: Word): (rn: nat)
    ensures rn < 16
  {
    (w / 0x1_0000) % 0x10
  }

  /** CMP with an immediate operand, condition AL, S set, rotate field zero. */
  predicate IsCmpImmediate(w: Word)
  {
    w / 0x10_0000 == 0xE35 && (w / 0x100) % 0x10 == 0
  }

  /** B (no link) with condition AL. */
  predicate IsBranch(w: Word)
  {
    w / 0x100_0000 == 0xEA
  }

  /**
   * The target of a branch fetched at address with 24-bit offset field
   * offset: address + 8 + SignExtend24(offset) * 4, modulo 2^32. The 8 is the
   * two-instruction look-ahead of the pipelined pc.
   */
  function BranchTarget(address: Word, offset: int): (t: Word)
    requires 0 <= offset < 0x100_0000
    ensures (t - address - 8 - 4 * SignExtend24(offset)) % 0x1_0000_0000 == 0
  {
    Wrap(address + 8 + SignExtend24(offset) * 4)
  }

  /** decode(fetchAddress, word, registers). */
  function Decode(address: Word, w: Word, regs: seq<Word>): (d: Instr)
    requires |regs| == 16
    ensures d == Nop <==> w == 0
    ensures d.Cmp? <==> IsCmpImmediate(w)
    ensures d.Cmp? ==> d.lhs == regs[RnField(w)] && d.imm == w % 0x100
    ensures d.B? <==> IsBranch(w)
    ensures d.B? ==> d.target == BranchTarget(address, w % 0x100_0000)
    ensures d.Unknown? ==> d.word == w
  {
    if w == 0 then Nop
    else if IsCmpImmediate(w) then Cmp(regs[RnField(w)], w % 0x100)
    else if IsBranch(w) then B(BranchTarget(address, w % 0x100_0000))
    else Unknown(w)
  }

  /**
   * The decoded instruction depends on the registers only through the value
   * of Rn, and only for a compare: it is a snapshot of that one value.
   */
  lemma DecodeReadsOnlyRn(address: Word, w: Word, regs: seq<Word>, regs': seq<Word>)
    requires |regs| == 16 && |regs'| == 16
    requires IsCmpImmediate(w) ==> regs[RnField(w)] == regs'[RnField(w)]
    ensures Decode(address, w, regs) == Decode(address, w, regs')
  {
  }

  /** A branch from a word-aligned address lands on a word-aligned address. */
  lemma BranchTargetAligned(address: Word, offset: int)
    requires 0 <= offset < 0x100_0000
    requires address % 4 == 0
    ensures BranchTarget(address, offset) % 4 == 0
  {
  }

  /**
   * A branch targets its own address exactly when its offset field is
   * 0xFFFFFE (-2): the spinning branch 0xEAFFFFFE.
   */
  lemma SelfBranchIff(address: Word, offset: int)
    requires 0 <= offset < 0x100_0000
    ensures BranchTarget(address, offset) == address <==> offset == 0xFF_FFFE
  {
    var s := SignExtend24(offset);
    var t := address + 8 + s * 4;
    if BranchTarget(address, offset) == address {
      var k := (t - address) / 0x1_0000_0000;
      assert t - address == 8 + 4 * s;
      assert (t - address) % 0x1_0000_0000 == 0;
      assert t - address == 0x1_0000_0000 * k;
      assert k == 0;
      assert s == -2;
    }
  }

  /** The word of CMP Rn, #imm (condition AL, rotate field zero). */
  function EncodeCmp(rn: nat, imm: nat): Word
    requires rn < 16 && imm < 0x100
  {
    0xE350_0000 + rn * 0x1_0000 + imm
  }

  /** The word of B with a signed word offset, as the branch tests build it. */
  function EncodeBranch(offset: int): Word
    requires -0x80_0000 <= offset < 0x80_0000
  {
    0xEA00_0000 + (if offset < 0 then offset + 0x100_0000 else offset)
  }

  /** Decoding an encoded compare snapshots Rn's value and the immediate. */
  lemma DecodeEncodeCmp(address: Word, rn: nat, imm: nat, regs: seq<Word>)
    requires rn < 16 && imm < 0x100 && |regs| == 16
    ensures Decode(address, EncodeCmp(rn, imm), regs) == Cmp(regs[rn], imm)
  {
    var w := EncodeCmp(rn, imm);
    assert w / 0x1_0000 == 0xE350 + rn;
    assert w / 0x100 == 0xE3_5000 + rn * 0x100 + imm / 0x100;
  }

  /** Decoding an encoded branch gives the target address + 8 + 4 * offset, modulo 2^32. */
  lemma DecodeEncodeBranch(address: Word, offset: int, regs: seq<Word>)
    requires -0x80_0000 <= offset < 0x80_0000 && |regs| == 16
    ensures Decode(address, EncodeBranch(offset), regs) == B(Wrap(address + 8 + 4 * offset))
  {
    var w := EncodeBranch(offset);
    var field := if offset < 0 then offset + 0x100_0000 else offset;
    assert w % 0x100_0000 == field;
    SignExtend24Unique(field, offset);
  }

  /** The decodings the pipeline test spells out for its words. */
  lemma DecodeExamples(regs: seq<Word>)
    requires |regs| == 16 && regs[1] == 1 && regs[3] == 3 && regs[14] == 0
    ensures Decode(4, 0xe3510000, regs) == Cmp(1, 0)
    ensures Decode(8, 0xe3530000, regs) == Cmp(3, 0)
    ensures Decode(0x70, 0xe35e0000, regs) == Cmp(0, 0)
    ensures Decode(4, 0, regs) == Nop
    ensures Decode(8, 0xea000018, regs) == B(0x70)
    ensures Decode(8, 0xea00000a, regs) == B(0x38)
    ensures Decode(0x108, 0xeafffff6, regs) == B(0xe8)
    ensures Decode(0x108, 0xeafffffe, regs) == B(0x108)
  {
  }

  /** The offset the branch tests compute with Utils.toSigned(Utils.reverseBytes(offset)). */
  lemma BranchOffsetExamples()
    ensures SignExtend24(ReverseBytes(0x0a000000)) * 4 + 8 + 8 == 0x38
    ensures SignExtend24(ReverseBytes(0xf6ffff00)) * 4 + 0x100 + 8 + 8 == 0xe8
    ensures SignExtend24(ReverseBytes(0xfeffff00)) * 4 + 0x100 + 8 + 8 == 0x108
  {
    ReverseBytesOfFromBytes(0, 0, 0, 0x0a);
    ReverseBytesOfFromBytes(0, 0xff, 0xff, 0xf6);
    ReverseBytesOfFromBytes(0, 0xff, 0xff, 0xfe);
  }
}
