/**
 * The CPU object: it owns a memory unit, the registers r0-r14, pc and cpsr,
 * and the fetched and decoded pipeline slots, all updated in place. The test
 * file's helpers (setPC, setR1, setCPSR, setFetched, setDecoded and their
 * getters) are plain reads and writes of these fields.
 */
module Cpu {
  import opened Words
  import opened Memory
  import opened Status
  import opened Decoder
  import opened Pipeline

  class Arm7tdmi {
    var mmu: Mmu
    /** r0 to r14. */
    var r: array<Word>
    var pc: Word
    var cpsr: Word
    var fetched: Fetched
    var decoded: Instr

    ghost predicate Valid()
      reads this
    {
      r.Length == 15
    }

    /** The state the pipeline model speaks about. */
    function State(): CpuState
      reads this, r
      requires Valid()
    {
      CpuState(r[..], pc, cpsr, fetched, decoded)
    }

    /** The bytes of the memory unit (getMemory). */
    function Memory(): (m: seq<Byte>)
      reads this, mmu, mmu.bytes
      ensures |m| == mmu.bytes.Length
      ensures forall i :: 0 <= i < |m| ==> m[i] == mmu.bytes[i]
    {
      mmu.bytes[..]
    }

    /**
     * A CPU over the memory unit m. The registers and slots a fresh CPU starts
     * with are given as init.
     */
    constructor (m: Mmu, init: CpuState)
      requires WellFormed(init)
      ensures Valid() && fresh(r)
      ensures mmu == m && State() == init
    {
      mmu := m;
      r := new Word[15](i requires 0 <= i < 15 => init.r[i]);
      pc := init.pc;
      cpsr := init.cpsr;
      fetched := init.fetched;
      decoded := init.decoded;
      new;
      assert r[..] == init.r;
    }

    /** getNZCVQ(). */
    function GetNZCVQ(): (g: nat)
      reads this
      ensures g < 32 && g * FLAG_UNIT <= cpsr < (g + 1) * FLAG_UNIT
    {
      Status.GetNZCVQ(cpsr)
    }

    /**
     * setFlag(flag, value, token): the named flag of cpsr takes value, in
     * place; the token argument has no effect and is not modelled.
     */
    method SetFlag(name: FlagName, value: bool)
      modifies this
      ensures cpsr == Status.SetFlag(old(cpsr), name, value)
      ensures GetFlag(cpsr, name) == value
      ensures mmu == old(mmu) && r == old(r) && pc == old(pc)
      ensures fetched == old(fetched) && decoded == old(decoded)
    {
      cpsr := Status.SetFlag(cpsr, name, value);
    }

    /**
     * cycle(): execute, decode, advance pc and fetch, in place. The new state
     * is one Step of the pipeline model; memory and r0-r14 are untouched.
     */
    method Cycle()
      requires Valid() && CanStep(State(), Memory())
      modifies this
      ensures Valid() && mmu == old(mmu) && r == old(r) && Memory() == old(Memory())
      ensures State() == Step(old(State()), Memory())
    {
      ghost var s := State();
      var regs := r[..] + [pc];
      assert regs == Registers(s);
      // execute
      var redirect: Option<Word> := None;
      match decoded {
        case Cmp(_, _) => cpsr := ExecuteFlags(decoded, cpsr);
        case B(target) => redirect := Some(target);
        case _ =>
      }
      assert cpsr == ExecuteFlags(s.decoded, s.cpsr);
      // decode
      decoded := Decode(fetched.addr, fetched.word, regs);
      assert decoded == NextDecoded(s);
      // advance pc
      if redirect.Some? {
        pc := Wrap(redirect.value + 8);
      } else {
        pc := Wrap(pc + 4);
      }
      assert pc == NextPc(s.decoded, s.pc);
      // fetch
      var address := if decoded.B? then decoded.target else Wrap(pc - 4);
      assert address == NextFetchAddress(s);
      var word := mmu.ReadWord(address);
      fetched := Fetched(address, word);
    }
  }
}
