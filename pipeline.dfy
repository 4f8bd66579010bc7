/**
 * The 3-stage pipeline as a pure transition on the CPU's state. One Step is
 * one cycle():
 *   1. execute the old decoded slot: a compare sets N and Z, a branch
 *      redirects pc;
 *   2. decode the old fetched slot, against the registers as they were when
 *      the cycle began;
 *   3. advance pc: target + 8 after an executed branch, pc + 4 otherwise;
 *   4. fetch from the target of the branch just decoded, if it is one, and
 *      otherwise from the new pc - 4.
 * Memory is read, never written, by a cycle.
 */
module Pipeline {
  import opened Words
  import opened Memory
  import opened Status
  import opened Decoder

  datatype Option<T> = None | Some(value: T)

  /** The fetched slot: the address a word came from and the word. */
  datatype Fetched = Fetched(addr: Word, word: Word)

  /** The CPU's registers r0-r14, pc, cpsr and the two pipeline slots. */
  datatype CpuState = CpuState(r: seq<Word>, pc: Word, cpsr: Word, fetched: Fetched, decoded: Instr)

  predicate WellFormed(s: CpuState)
  {
    |s.r| == 15
  }

  /** The sixteen registers as the decoder reads them: r0-r14, then pc as r15. */
  function Registers(s: CpuState): (regs: seq<Word>)
    requires WellFormed(s)
    ensures |regs| == 16 && regs[15] == s.pc
    ensures forall i :: 0 <= i < 15 ==> regs[i] == s.r[i]
  {
    s.r + [s.pc]
  }

  /**
   * In a coherent pipeline with no branch decoded, the decoder reads r15 as
   * the fetch address of the word it decodes plus 4, not plus 8 as on ARM.
   */
  lemma DecodeSeesFetchAddressPlus4(s: CpuState)
    requires WellFormed(s) && Coherent(s) && !s.decoded.B?
    ensures Registers(s)[15] == Wrap(s.fetched.addr + 4)
  {
    WrapShift(s.pc, -4, 4);
  }

  /**
   * The status word after executing d. A compare of lhs with imm computes
   * lhs - imm in 32 bits and sets Z when it is zero and N when its bit 31 is
   * set; C, V, Q and bits 26-0 are left as they were. Nop, branch and any
   * unsupported instruction leave the status word alone.
   */
  function ExecuteFlags(d: Instr, cpsr: Word): (c: Word)
    ensures !d.Cmp? ==> c == cpsr
    ensures d.Cmp? ==> (FlagsOf(c).z <==> d.lhs == d.imm)
    ensures d.Cmp? ==> (FlagsOf(c).n <==> Wrap(d.lhs - d.imm) >= 0x8000_0000)
    ensures d.Cmp? ==> FlagsOf(c).c == FlagsOf(cpsr).c && FlagsOf(c).v == FlagsOf(cpsr).v
    ensures FlagsOf(c).q == FlagsOf(cpsr).q
    ensures c % FLAG_UNIT == cpsr % FLAG_UNIT
  {
    match d
    case Cmp(lhs, imm) =>
      var result := Wrap(lhs - imm);
      WithFlags(cpsr, FlagsOf(cpsr).(n := result >= 0x8000_0000, z := result == 0))
    case _ => cpsr
  }

  /** The pc after executing d: the branch target + 8, or pc + 4. */
  function NextPc(d: Instr, pc: Word): Word
  {
    if d.B? then Wrap(d.target + 8) else Wrap(pc + 4)
  }

  /** What the decode stage of the next cycle puts in the decoded slot. */
  function NextDecoded(s: CpuState): Instr
    requires WellFormed(s)
  {
    Decode(s.fetched.addr, s.fetched.word, Registers(s))
  }

  /** The address the next cycle fetches from. */
  function FetchAddress(decoded: Instr, pc: Word): Word
  {
    if decoded.B? then decoded.target else Wrap(pc - 4)
  }

  function NextFetchAddress(s: CpuState): Word
    requires WellFormed(s)
  {
    FetchAddress(NextDecoded(s), NextPc(s.decoded, s.pc))
  }

  /** The next cycle's fetch stays inside memory. */
  predicate CanStep(s: CpuState, mem: seq<Byte>)
  {
    WellFormed(s) && InBounds(mem, NextFetchAddress(s))
  }

  /**
   * The pipeline is coherent when the fetched slot holds the instruction the
   * decoded one will be followed by: a decoded branch's target, and otherwise
   * the word just below pc.
   */
  predicate Coherent(s: CpuState)
  {
    if s.decoded.B? then s.fetched.addr == s.decoded.target else s.fetched.addr == Wrap(s.pc - 4)
  }

  /** The fetched slot holds the memory word at its address. */
  predicate FetchedFromMemory(s: CpuState, mem: seq<Byte>)
  {
    InBounds(mem, s.fetched.addr) && s.fetched.word == LoadWord(mem, s.fetched.addr)
  }

  /** cycle(): one tick of the pipeline. Every cycle leaves the pipeline coherent. */
  function Step(s: CpuState, mem: seq<Byte>): (t: CpuState)
    requires CanStep(s, mem)
    ensures WellFormed(t) && t.r == s.r
    ensures t.cpsr == ExecuteFlags(s.decoded, s.cpsr)
    ensures FetchedFromMemory(t, mem)
    ensures Coherent(t)
  {
    var d := NextDecoded(s);
    var pc := NextPc(s.decoded, s.pc);
    var a := FetchAddress(d, pc);
    CpuState(s.r, pc, ExecuteFlags(s.decoded, s.cpsr), Fetched(a, LoadWord(mem, a)), d)
  }

  /**
   * In a coherent pipeline the fetch rule agrees with the sequential one:
   * the next fetch is the decoded branch's target, and otherwise the word
   * after the one last fetched.
   */
  lemma CoherentFetchIsSequential(s: CpuState)
    requires WellFormed(s) && Coherent(s)
    ensures NextFetchAddress(s) ==
      if NextDecoded(s).B? then NextDecoded(s).target else Wrap(s.fetched.addr + 4)
  {
    if !NextDecoded(s).B? {
      if s.decoded.B? {
        WrapShift(s.decoded.target, 8, -4);
      } else {
        WrapShift(s.pc, -4, 4);
        WrapShift(s.pc, 4, -4);
      }
    }
  }

  /** Wrap(Wrap(x + a) + b) == Wrap(x + a + b). */
  lemma WrapShift(x: int, a: int, b: int)
    ensures Wrap(Wrap(x + a) + b) == Wrap(x + a + b)
  {
    var y := x + a;
    assert y == Wrap(y) + 0x1_0000_0000 * (y / 0x1_0000_0000);
  }

  /**
   * A cycle with no branch in the decode or the execute stage: pc goes up by 4,
   * the old fetched word moves into the decoded slot, and the word at the old
   * pc - the one after the word last fetched, in a coherent pipeline - is fetched.
   */
  lemma StepSequential(s: CpuState, mem: seq<Byte>)
    requires CanStep(s, mem)
    requires !s.decoded.B? && !NextDecoded(s).B?
    ensures Step(s, mem).pc == Wrap(s.pc + 4)
    ensures Step(s, mem).decoded == NextDecoded(s)
    ensures Step(s, mem).fetched == Fetched(s.pc, LoadWord(mem, s.pc))
    ensures Coherent(s) ==> s.pc == Wrap(s.fetched.addr + 4)
  {
    WrapShift(s.pc, 4, -4);
    WrapShift(s.pc, -4, 4);
  }

  /**
   * The cycle that decodes a branch already fetches the branch target; pc
   * only advances by 4 unless a branch is executing in the same cycle.
   */
  lemma StepDecodesBranch(s: CpuState, mem: seq<Byte>)
    requires CanStep(s, mem) && NextDecoded(s).B?
    ensures Step(s, mem).decoded == NextDecoded(s)
    ensures Step(s, mem).fetched == Fetched(NextDecoded(s).target, LoadWord(mem, NextDecoded(s).target))
    ensures !s.decoded.B? ==> Step(s, mem).pc == Wrap(s.pc + 4)
  {
  }

  /**
   * The cycle that executes a branch to target sets pc to target + 8, keeps
   * cpsr, and decodes the word fetched before it.
   */
  lemma StepExecutesBranch(s: CpuState, mem: seq<Byte>)
    requires CanStep(s, mem) && s.decoded.B?
    ensures Step(s, mem).pc == Wrap(s.decoded.target + 8)
    ensures Step(s, mem).cpsr == s.cpsr
    ensures Step(s, mem).decoded == NextDecoded(s)
  {
  }

  /**
   * When the instruction decoded beside an executing branch is no branch,
   * the cycle fetches the word at target + 4.
   */
  lemma StepExecutesBranchFetch(s: CpuState, mem: seq<Byte>)
    requires CanStep(s, mem) && s.decoded.B? && !NextDecoded(s).B?
    ensures Step(s, mem).fetched == Fetched(Wrap(s.decoded.target + 4), LoadWord(mem, Wrap(s.decoded.target + 4)))
  {
    WrapShift(s.decoded.target, 8, -4);
  }

  /**
   * A spinning pipeline: a branch to t is decoded, the word fetched from t is
   * that same branch, and pc is t + 8.
   */
  predicate Spinning(s: CpuState, mem: seq<Byte>)
  {
    && WellFormed(s)
    && s.decoded.B?
    && InBounds(mem, s.decoded.target)
    && s.fetched == Fetched(s.decoded.target, LoadWord(mem, s.decoded.target))
    && NextDecoded(s) == s.decoded
    && s.pc == Wrap(s.decoded.target + 8)
  }

  /** A cycle leaves the state unchanged exactly when the pipeline is spinning. */
  lemma FixedPointIffSpinning(s: CpuState, mem: seq<Byte>)
    requires CanStep(s, mem)
    ensures Step(s, mem) == s <==> Spinning(s, mem)
  {
  }

  /**
   * Once a coherent pipeline decodes a branch to the address it was fetched
   * from (the word 0xEAFFFFFE), the next cycle leaves it spinning.
   */
  lemma SelfBranchStartsSpin(s: CpuState, mem: seq<Byte>)
    requires CanStep(s, mem) && Coherent(s) && FetchedFromMemory(s, mem)
    requires NextDecoded(s) == B(s.fetched.addr)
    ensures Spinning(Step(s, mem), mem)
  {
    var t := Step(s, mem);
    var a: int := s.fetched.addr;
    assert t.fetched == Fetched(a, LoadWord(mem, a));
    if s.decoded.B? {
      assert t.pc == Wrap(a + 8);
    } else {
      WrapShift(s.pc, -4, 8);
      assert t.pc == Wrap(a + 8);
    }
    assert Registers(t) == Registers(s)[15 := t.pc];
    DecodeReadsOnlyRn(a, s.fetched.word, Registers(s), Registers(t));
  }

  /** n cycles; None if some cycle on the way would fetch outside memory. */
  function Run(s: CpuState, mem: seq<Byte>, n: nat): Option<CpuState>
    decreases n
  {
    if n == 0 then Some(s)
    else if CanStep(s, mem) then Run(Step(s, mem), mem, n - 1)
    else None
  }

  /** A spinning pipeline stays where it is for any number of cycles. */
  lemma {:induction false} SpinsForever(s: CpuState, mem: seq<Byte>, n: nat)
    requires Spinning(s, mem)
    ensures Run(s, mem, n) == Some(s)
  {
    if n > 0 {
      assert NextFetchAddress(s) == s.decoded.target;
      FixedPointIffSpinning(s, mem);
      SpinsForever(s, mem, n - 1);
    }
  }

  /**
   * Executing the decoded compare of 1 with 1 from a status word whose C, V
   * and Q are clear gives NZCVQ = 0b01000 (Z alone), and pc advances by 4.
   */
  lemma CompareEqualSetsZ(s: CpuState, mem: seq<Byte>)
    requires CanStep(s, mem) && s.decoded == Cmp(1, 1)
    requires GetNZCVQ(s.cpsr) % 8 == 0
    ensures GetNZCVQ(Step(s, mem).cpsr) == 8  // 0b01000
    ensures Step(s, mem).pc == Wrap(s.pc + 4)
  {
    var g := GetNZCVQ(s.cpsr);
    var k := g / 8;
    assert g == 8 * k;
    assert g / 4 == 2 * k && g / 2 == 4 * k;
    var f := FlagsOf(s.cpsr);
    assert f.(n := false, z := true) == Flags(false, true, false, false, false);
  }
}
