/**
 * The cases of the ARM7TDMI test file. Each case has up to three parts:
 *   - a lemma on the memory it writes: what the fetch path reads back;
 *   - a lemma on the pipeline model: the states its cycles go through;
 *   - a method that drives the Cpu and Mmu classes as the case does, from a
 *     fresh memory unit of the given size and a CPU whose start-up registers
 *     and slots are init, and returns what the case inspects. Its
 *     postconditions are the case's assertions.
 */
module Scenarios {
  import opened Words
  import opened Memory
  import opened Status
  import opened Decoder
  import opened Pipeline
  import opened Cpu

  /** 'should read a memory array'. */
  method ReadMemoryArray(size: nat) returns (w: Word)
    requires size >= 0x104
    ensures w == 0x04030201
  {
    var mmu := new Mmu(size);
    mmu.WriteWord(0x01020304, 0x100);
    LoadAfterStore(Zeroes(size), 0x100, 0x01020304);
    ReverseBytesOfFromBytes(4, 3, 2, 1);
    w := mmu.ReadWord(0x100);
  }

  /** 'should read NZCVQ flags'. */
  method ReadFlags(size: nat, init: CpuState) returns (g: nat)
    requires WellFormed(init)
    ensures g == 0x1f
  {
    var mmu := new Mmu(size);
    var cpu := new Arm7tdmi(mmu, init);
    cpu.cpsr := 0xf800_0000;
    g := cpu.GetNZCVQ();
  }

  // 'should execute instructions in a pipeline'

  /** The two compare words the case writes are fetched as 0xe3530000 and 0xe3540000. */
  lemma PipelineMemory(size: nat)
    requires size >= 0x10
    ensures var m := StoreWord(StoreWord(Zeroes(size), 8, 0x000053e3), 12, 0x000054e3);
      LoadWord(m, 8) == 0xe3530000 && LoadWord(m, 12) == 0xe3540000
  {
    var m1 := StoreWord(Zeroes(size), 8, 0x000053e3);
    LoadAfterStore(Zeroes(size), 8, 0x000053e3);
    LoadAfterStore(m1, 12, 0x000054e3);
    LoadAfterStoreElsewhere(m1, 12, 0x000054e3, 8);
    ReverseBytesOfFromBytes(0xe3, 0x53, 0, 0);
    ReverseBytesOfFromBytes(0xe3, 0x54, 0, 0);
  }

  /** Two sequential cycles, each decoding a compare with Rn's value at decode time. */
  lemma PipelineSteps(mem: seq<Byte>, s0: CpuState)
    requires |mem| >= 0x10 && WellFormed(s0)
    requires LoadWord(mem, 8) == 0xe3530000 && LoadWord(mem, 12) == 0xe3540000
    requires s0.pc == 8 && s0.fetched == Fetched(4, 0xe3510000) && s0.decoded == Cmp(0, 0)
    requires s0.r[1] == 1 && s0.r[3] == 3
    ensures CanStep(s0, mem) && CanStep(Step(s0, mem), mem)
    ensures var s1 := Step(s0, mem);
      s1.pc == 12 && s1.fetched == Fetched(8, 0xe3530000) && s1.decoded == Cmp(1, 0)
    ensures var s2 := Step(Step(s0, mem), mem);
      s2.pc == 16 && s2.fetched == Fetched(12, 0xe3540000) && s2.decoded == Cmp(3, 0)
  {
    DecodeEncodeCmp(4, 1, 0, Registers(s0));
    assert CanStep(s0, mem);
    DecodeEncodeCmp(8, 3, 0, Registers(Step(s0, mem)));
  }

  method ExecuteInPipeline(size: nat, init: CpuState) returns (s1: CpuState, s2: CpuState)
    requires size >= 0x10 && WellFormed(init)
    ensures s1.pc == 12 && s1.fetched == Fetched(8, 0xe3530000) && s1.decoded == Cmp(1, 0)
    ensures s2.pc == 16 && s2.fetched == Fetched(12, 0xe3540000) && s2.decoded == Cmp(3, 0)
  {
    var mmu := new Mmu(size);
    var cpu := new Arm7tdmi(mmu, init);
    cpu.pc := 8;
    cpu.fetched := Fetched(4, 0xe3510000);
    cpu.decoded := Cmp(0, 0);
    cpu.r[1] := 1;
    cpu.r[2] := 2;
    cpu.r[3] := 3;
    mmu.WriteWord(0x000053e3, 8);
    mmu.WriteWord(0x000054e3, 12);
    PipelineMemory(size);
    ghost var mem, s0 := cpu.Memory(), cpu.State();
    PipelineSteps(mem, s0);
    cpu.Cycle();
    s1 := cpu.State();
    assert s1 == Step(s0, mem);
    cpu.Cycle();
    s2 := cpu.State();
    assert s2 == Step(s1, mem);
  }

  // 'should fetch, decode and execute an branching instruction'

  lemma BranchingMemory(size: nat)
    requires size >= 0x78
    ensures var m := StoreWord(StoreWord(StoreWord(Zeroes(size), 8, 0x180000ea), 0x70, 0x00005ee3), 0x74, 0xffffffff);
      LoadWord(m, 8) == 0xea000018 && LoadWord(m, 0x70) == 0xe35e0000 && LoadWord(m, 0x74) == 0xffffffff
  {
    var m1 := StoreWord(Zeroes(size), 8, 0x180000ea);
    var m2 := StoreWord(m1, 0x70, 0x00005ee3);
    LoadAfterStore(Zeroes(size), 8, 0x180000ea);
    LoadAfterStore(m1, 0x70, 0x00005ee3);
    LoadAfterStore(m2, 0x74, 0xffffffff);
    LoadAfterStoreElsewhere(m1, 0x70, 0x00005ee3, 8);
    LoadAfterStoreElsewhere(m2, 0x74, 0xffffffff, 8);
    LoadAfterStoreElsewhere(m2, 0x74, 0xffffffff, 0x70);
    ReverseBytesOfFromBytes(0xea, 0, 0, 0x18);
    ReverseBytesOfFromBytes(0xe3, 0x5e, 0, 0);
    ReverseBytesOfFromBytes(0xff, 0xff, 0xff, 0xff);
  }

  /** A branch is decoded, its target fetched at once, and then executed. */
  lemma BranchingSteps(mem: seq<Byte>, s0: CpuState)
    requires |mem| >= 0x78 && WellFormed(s0)
    requires LoadWord(mem, 8) == 0xea000018 && LoadWord(mem, 0x70) == 0xe35e0000
    requires LoadWord(mem, 0x74) == 0xffffffff
    requires s0.pc == 8 && s0.fetched == Fetched(4, 0) && s0.decoded == Nop && s0.r[14] == 0
    ensures CanStep(s0, mem) && CanStep(Step(s0, mem), mem) && CanStep(Step(Step(s0, mem), mem), mem)
    ensures var s1 := Step(s0, mem);
      s1.fetched == Fetched(8, 0xea000018) && s1.decoded == Nop && s1.pc == 12
    ensures var s2 := Step(Step(s0, mem), mem);
      s2.fetched == Fetched(0x70, 0xe35e0000) && s2.decoded == B(0x70) && s2.pc == 16
    ensures var s3 := Step(Step(Step(s0, mem), mem), mem);
      s3.fetched == Fetched(0x74, 0xffffffff) && s3.decoded == Cmp(0, 0) && s3.pc == 0x78
  {
    assert CanStep(s0, mem);
    var s1 := Step(s0, mem);
    DecodeEncodeBranch(8, 0x18, Registers(s1));
    assert CanStep(s1, mem);
    var s2 := Step(s1, mem);
    DecodeEncodeCmp(0x70, 14, 0, Registers(s2));
  }

  /** The set-up of the branching case: its registers and slots, and its three words. */
  method BranchingBoot(size: nat, init: CpuState) returns (cpu: Arm7tdmi)
    requires size >= 0x78 && WellFormed(init)
    ensures fresh(cpu) && cpu.Valid()
    ensures cpu.State() == init.(pc := 8, fetched := Fetched(4, 0), decoded := Nop)
    ensures cpu.Memory() == StoreWord(StoreWord(StoreWord(Zeroes(size), 8, 0x180000ea), 0x70, 0x00005ee3), 0x74, 0xffffffff)
  {
    var mmu := new Mmu(size);
    cpu := new Arm7tdmi(mmu, init);
    cpu.pc := 8;
    cpu.fetched := Fetched(4, 0);
    cpu.decoded := Nop;
    mmu.WriteWord(0x180000ea, 8);
    mmu.WriteWord(0x00005ee3, 0x70);
    mmu.WriteWord(0xffffffff, 0x74);
  }

  method FetchDecodeExecuteBranch(size: nat, init: CpuState)
    returns (s1: CpuState, s2: CpuState, s3: CpuState)
    requires size >= 0x78 && WellFormed(init) && init.r[14] == 0
    ensures s1.fetched == Fetched(8, 0xea000018) && s1.decoded == Nop && s1.pc == 12
    ensures s2.fetched == Fetched(0x70, 0xe35e0000) && s2.decoded == B(0x70) && s2.pc == 16
    ensures s3.fetched == Fetched(0x74, 0xffffffff) && s3.decoded == Cmp(0, 0) && s3.pc == 0x78
  {
    var cpu := BranchingBoot(size, init);
    BranchingMemory(size);
    ghost var mem, s0 := cpu.Memory(), cpu.State();
    BranchingSteps(mem, s0);
    cpu.Cycle();
    s1 := cpu.State();
    assert s1 == Step(s0, mem);
    cpu.Cycle();
    s2 := cpu.State();
    assert s2 == Step(s1, mem);
    cpu.Cycle();
    s3 := cpu.State();
    assert s3 == Step(s2, mem);
  }

  // 'should branch forward', 'should branch backwards', 'should branch to the same address'

  /**
   * The branch cases start from a fresh CPU whose decoded slot holds no branch
   * and whose fetched word is zero; the case sets pc and writes one branch word.
   */
  predicate FreshSlots(init: CpuState)
  {
    WellFormed(init) && !init.decoded.B? && init.fetched.word == 0
  }

  /**
   * The start of each branch case: a fresh memory unit of the given size and
   * a CPU over it whose start-up state is init, then pc set and one word written.
   */
  method Boot(size: nat, init: CpuState, pc: Word, address: Word, value: Word) returns (cpu: Arm7tdmi)
    requires WellFormed(init) && address + 4 <= size
    ensures fresh(cpu) && cpu.Valid()
    ensures cpu.State() == init.(pc := pc)
    ensures cpu.Memory() == StoreWord(Zeroes(size), address, value)
  {
    var mmu := new Mmu(size);
    cpu := new Arm7tdmi(mmu, init);
    cpu.pc := pc;
    mmu.WriteWord(value, address);
  }

  /** The forward-branch case's memory: the branch at 8 and zero words at its target. */
  lemma BranchForwardMemory(size: nat)
    requires size >= 0x48
    ensures var m := StoreWord(Zeroes(size), 8, 0x0a0000ea);
      LoadWord(m, 8) == 0xea00000a && LoadWord(m, 0x38) == 0 && LoadWord(m, 0x3c) == 0 && LoadWord(m, 0x40) == 0
  {
    LoadAfterStore(Zeroes(size), 8, 0x0a0000ea);
    ReverseBytesOfFromBytes(0xea, 0, 0, 0x0a);
    LoadAfterStoreElsewhere(Zeroes(size), 8, 0x0a0000ea, 0x38);
    LoadZeroes(size, 0x38);
    LoadAfterStoreElsewhere(Zeroes(size), 8, 0x0a0000ea, 0x3c);
    LoadZeroes(size, 0x3c);
    LoadAfterStoreElsewhere(Zeroes(size), 8, 0x0a0000ea, 0x40);
    LoadZeroes(size, 0x40);
  }

  /** Forward branch by 10 words from 8: fetch, decode (target 0x38 fetched), execute, continue. */
  lemma BranchForwardSteps(mem: seq<Byte>, s0: CpuState)
    requires |mem| >= 0x48 && FreshSlots(s0) && s0.pc == 8
    requires LoadWord(mem, 8) == 0xea00000a
    requires LoadWord(mem, 0x38) == 0 && LoadWord(mem, 0x3c) == 0 && LoadWord(mem, 0x40) == 0
    ensures CanStep(s0, mem)
    ensures var s1 := Step(s0, mem);
      s1.fetched == Fetched(8, 0xea00000a) && s1.decoded == Nop && s1.pc == 12 && CanStep(s1, mem)
    ensures var s2 := Step(Step(s0, mem), mem);
      s2.fetched == Fetched(0x38, 0) && s2.decoded == B(0x38) && s2.pc == 16 && CanStep(s2, mem)
    ensures var s3 := Step(Step(Step(s0, mem), mem), mem);
      s3.fetched == Fetched(0x3c, 0) && s3.decoded == Nop && s3.pc == 0x40 && CanStep(s3, mem)
    ensures var s4 := Step(Step(Step(Step(s0, mem), mem), mem), mem);
      s4.fetched == Fetched(0x40, 0) && s4.decoded == Nop && s4.pc == 0x44
  {
    assert CanStep(s0, mem);
    var s1 := Step(s0, mem);
    DecodeEncodeBranch(8, 10, Registers(s1));
    assert CanStep(s1, mem);
  }

  method BranchForward(size: nat, init: CpuState)
    returns (s1: CpuState, s2: CpuState, s3: CpuState, s4: CpuState)
    requires size >= 0x48 && FreshSlots(init)
    ensures s1.fetched == Fetched(8, 0xea00000a) && s1.decoded == Nop && s1.pc == 12
    ensures s2.fetched == Fetched(0x38, 0) && s2.decoded == B(0x38) && s2.pc == 16
    ensures s3.fetched == Fetched(0x3c, 0) && s3.decoded == Nop && s3.pc == 0x40
    ensures s4.fetched == Fetched(0x40, 0) && s4.decoded == Nop && s4.pc == 0x44
  {
    var cpu := Boot(size, init, 8, 8, 0x0a0000ea);
    BranchForwardMemory(size);
    ghost var mem, s0 := cpu.Memory(), cpu.State();
    BranchForwardSteps(mem, s0);
    cpu.Cycle();
    s1 := cpu.State();
    assert s1 == Step(s0, mem);
    cpu.Cycle();
    s2 := cpu.State();
    assert s2 == Step(s1, mem);
    cpu.Cycle();
    s3 := cpu.State();
    assert s3 == Step(s2, mem);
    cpu.Cycle();
    s4 := cpu.State();
    assert s4 == Step(s3, mem);
  }

  /** The backward-branch case's memory: the branch at 0x108 and zero words at its target. */
  lemma BranchBackwardsMemory(size: nat)
    requires size >= 0x10c
    ensures var m := StoreWord(Zeroes(size), 0x108, 0xf6ffffea);
      LoadWord(m, 0x108) == 0xeafffff6 && LoadWord(m, 0xe8) == 0 && LoadWord(m, 0xec) == 0 && LoadWord(m, 0xf0) == 0
  {
    LoadAfterStore(Zeroes(size), 0x108, 0xf6ffffea);
    ReverseBytesOfFromBytes(0xea, 0xff, 0xff, 0xf6);
    LoadAfterStoreElsewhere(Zeroes(size), 0x108, 0xf6ffffea, 0xe8);
    LoadZeroes(size, 0xe8);
    LoadAfterStoreElsewhere(Zeroes(size), 0x108, 0xf6ffffea, 0xec);
    LoadZeroes(size, 0xec);
    LoadAfterStoreElsewhere(Zeroes(size), 0x108, 0xf6ffffea, 0xf0);
    LoadZeroes(size, 0xf0);
  }

  /** Backward branch by -10 words from 0x108, landing on 0xe8. */
  lemma BranchBackwardsSteps(mem: seq<Byte>, s0: CpuState)
    requires |mem| >= 0x10c && FreshSlots(s0) && s0.pc == 0x108
    requires LoadWord(mem, 0x108) == 0xeafffff6
    requires LoadWord(mem, 0xe8) == 0 && LoadWord(mem, 0xec) == 0 && LoadWord(mem, 0xf0) == 0
    ensures CanStep(s0, mem)
    ensures var s1 := Step(s0, mem);
      s1.fetched == Fetched(0x108, 0xeafffff6) && s1.decoded == Nop && s1.pc == 0x10c && CanStep(s1, mem)
    ensures var s2 := Step(Step(s0, mem), mem);
      s2.fetched == Fetched(0xe8, 0) && s2.decoded == B(0xe8) && s2.pc == 0x110 && CanStep(s2, mem)
    ensures var s3 := Step(Step(Step(s0, mem), mem), mem);
      s3.fetched == Fetched(0xec, 0) && s3.decoded == Nop && s3.pc == 0xf0 && CanStep(s3, mem)
    ensures var s4 := Step(Step(Step(Step(s0, mem), mem), mem), mem);
      s4.fetched == Fetched(0xf0, 0) && s4.decoded == Nop && s4.pc == 0xf4
  {
    assert CanStep(s0, mem);
    var s1 := Step(s0, mem);
    DecodeEncodeBranch(0x108, -10, Registers(s1));
    assert CanStep(s1, mem);
  }

  method BranchBackwards(size: nat, init: CpuState)
    returns (s1: CpuState, s2: CpuState, s3: CpuState, s4: CpuState)
    requires size >= 0x10c && FreshSlots(init)
    ensures s1.fetched == Fetched(0x108, 0xeafffff6) && s1.decoded == Nop && s1.pc == 0x10c
    ensures s2.fetched == Fetched(0xe8, 0) && s2.decoded == B(0xe8) && s2.pc == 0x110
    ensures s3.fetched == Fetched(0xec, 0) && s3.decoded == Nop && s3.pc == 0xf0
    ensures s4.fetched == Fetched(0xf0, 0) && s4.decoded == Nop && s4.pc == 0xf4
  {
    var cpu := Boot(size, init, 0x108, 0x108, 0xf6ffffea);
    BranchBackwardsMemory(size);
    ghost var mem, s0 := cpu.Memory(), cpu.State();
    BranchBackwardsSteps(mem, s0);
    cpu.Cycle();
    s1 := cpu.State();
    assert s1 == Step(s0, mem);
    cpu.Cycle();
    s2 := cpu.State();
    assert s2 == Step(s1, mem);
    cpu.Cycle();
    s3 := cpu.State();
    assert s3 == Step(s2, mem);
    cpu.Cycle();
    s4 := cpu.State();
    assert s4 == Step(s3, mem);
  }

  /**
   * Branch to its own address at 0x108: after the cycle that decodes it the
   * pipeline is spinning, and every later cycle leaves it as it is.
   */
  lemma BranchToSameAddressSteps(mem: seq<Byte>, s0: CpuState)
    requires |mem| >= 0x10c && FreshSlots(s0) && s0.pc == 0x108
    requires LoadWord(mem, 0x108) == 0xeafffffe
    ensures CanStep(s0, mem)
    ensures var s1 := Step(s0, mem);
      s1.fetched == Fetched(0x108, 0xeafffffe) && s1.decoded == Nop && s1.pc == 0x10c && CanStep(s1, mem)
    ensures var s2 := Step(Step(s0, mem), mem);
      s2.fetched == Fetched(0x108, 0xeafffffe) && s2.decoded == B(0x108) && s2.pc == 0x110
      && Spinning(s2, mem)
  {
    assert CanStep(s0, mem);
    var s1 := Step(s0, mem);
    DecodeEncodeBranch(0x108, -2, Registers(s1));
    assert CanStep(s1, mem);
    SelfBranchStartsSpin(s1, mem);
  }

  method BranchToSameAddress(size: nat, init: CpuState)
    returns (s1: CpuState, s2: CpuState, s3: CpuState, s4: CpuState)
    requires size >= 0x10c && FreshSlots(init)
    ensures s1.fetched == Fetched(0x108, 0xeafffffe) && s1.decoded == Nop && s1.pc == 0x10c
    ensures s2.fetched == Fetched(0x108, 0xeafffffe) && s2.decoded == B(0x108) && s2.pc == 0x110
    ensures s3 == s2 && s4 == s2
  {
    var cpu := Boot(size, init, 0x108, 0x108, 0xfeffffea);
    LoadAfterStore(Zeroes(size), 0x108, 0xfeffffea);
    ReverseBytesOfFromBytes(0xea, 0xff, 0xff, 0xfe);
    ghost var mem, s0 := cpu.Memory(), cpu.State();
    BranchToSameAddressSteps(mem, s0);
    cpu.Cycle();
    s1 := cpu.State();
    assert s1 == Step(s0, mem);
    cpu.Cycle();
    s2 := cpu.State();
    assert s2 == Step(s1, mem);
    FixedPointIffSpinning(s2, mem);
    cpu.Cycle();
    s3 := cpu.State();
    assert s3 == Step(s2, mem);
    cpu.Cycle();
    s4 := cpu.State();
    assert s4 == Step(s3, mem);
  }

  /**
   * 'should compare two numbers'. A fresh CPU's C, V and Q are taken to be
   * clear, its fetched word zero and its pc inside memory.
   */
  method CompareTwoNumbers(size: nat, init: CpuState) returns (flags: nat, pc: Word)
    requires WellFormed(init) && init.fetched.word == 0 && init.pc + 4 <= size
    requires GetNZCVQ(init.cpsr) % 8 == 0
    ensures flags == 8
    ensures pc == Wrap(init.pc + 4)
  {
    var mmu := new Mmu(size);
    var cpu := new Arm7tdmi(mmu, init);
    cpu.r[14] := 1;
    cpu.decoded := Cmp(cpu.r[14], 1);
    CompareEqualSetsZ(cpu.State(), cpu.Memory());
    cpu.Cycle();
    flags := cpu.GetNZCVQ();
    pc := cpu.pc;
  }
}
