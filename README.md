# ARM7TDMI pipeline core

This is a Dafny model of the core of the GBA emulator's ARM7TDMI CPU. The engine's behaviour comes from what its test file, `test/arm7tdmi.spec.js`, fixes about it:

- **Memory unit** (`Memory`): a fixed-size byte store. A word written with `writeWord` and read back with `readWord` comes out byte-reversed, and the fetch path reads words as `readWord` does. The model realises this by storing the most significant byte first and reading the least significant byte first.
- **Status register** (`Status`): N, Z, C, V and Q in bits 31-27 of `cpsr`. `getNZCVQ` reads them as one 5-bit number. `setFlag` writes one of them.
- **Decoder** (`Decoder`): a pure map from `(fetch address, word, registers)` to `['nop']`, `['cmp', value of Rn, imm]`, `['b', target]` or an unsupported word (`Unknown`). The branch target is `address + 8 + signExtend24(offset) * 4`, modulo 2^32. This is the B instruction of the ARM Architecture Reference Manual (ARMv4T, chapter A4).
- **Pipeline** (`Pipeline`): `cycle()` as the pure transition `Step` on `CpuState`. It does four things:
  1. executes the old decoded slot;
  2. decodes the old fetched slot;
  3. advances `pc` to `target + 8` after an executed branch, and to `pc + 4` otherwise;
  4. fetches from the target of a just-decoded branch, and otherwise from the new `pc - 4`.
- **CPU object** (`Cpu.Arm7tdmi`): a class with the memory unit, the registers r0-r14, `pc`, `cpsr` and the two slots as fields. Its `Cycle` method updates them in place and is proved to perform exactly one `Step`.
- **The test cases** (`Scenarios`): each case is a method that drives the classes as the test does. Its postconditions are the case's assertions. Beside it, the case has lemmas on the pipeline model that give the states reached.

Words are integers in `[0, 2^32)`. 32-bit wrap-around is written out with `Wrap`. Bytes are integers in `[0, 256)`.

Two choices follow the test file:

- **Carry after a compare.** ARM's CMP sets C = NOT borrow, but the test's `cmp 1, 1` expects NZCVQ = 0b01000, which has C clear. So a compare here writes only N and Z.
- **Fetch rule.** The model fetches from the target of a just-decoded branch, and otherwise from the new `pc - 4`; this reproduces every asserted cycle.
  - `CoherentFetchIsSequential` proves this equals `fetched.addr + 4` in every coherent state.
  - `Step` proves that every cycle leaves the pipeline coherent.

## Model

| member | source | states |
|---|---|---|
| Words.ReverseBytes | test/arm7tdmi.spec.js:128 | byte k of the result is byte 3-k of the input, for every k |
| Words.ReverseBytesInvolutive | test/arm7tdmi.spec.js:128 | reversing the bytes twice gives the word back |
| Words.ReverseBytesOfFromBytes | test/arm7tdmi.spec.js:127-128 | reversing a word given by its bytes b0..b3 gives the word with bytes b3..b0 |
| Words.ByteOfFromBytes | test/arm7tdmi.spec.js:22-24 | assembling four bytes puts each in its own byte lane |
| Words.FromBytesOfBytes | test/arm7tdmi.spec.js:22-24 | a word is determined by its four bytes |
| Words.SignExtend24 | test/arm7tdmi.spec.js:128 | the result is in [-2^23, 2^23), congruent to the field modulo 2^24, and negative exactly when bit 23 is set |
| Words.SignExtend24Unique | test/arm7tdmi.spec.js:128 | those properties determine the sign-extended value uniquely |
| Memory.LoadWord | test/arm7tdmi.spec.js:22-24 | the word read at an address has the byte at that address as its least significant byte, then the next three bytes in order |
| Memory.StoreWord | test/arm7tdmi.spec.js:16-18 | the store keeps its size and holds the word's bytes most significant first at the four addresses |
| Memory.StoreWordFrame | test/arm7tdmi.spec.js:16-18 | a write changes no byte outside the four it stores |
| Memory.LoadAfterStore | test/arm7tdmi.spec.js:66-69 | readWord after writeWord at the same address returns the byte-reversed value |
| Memory.FetchSeesReversedSpelling | test/arm7tdmi.spec.js:86-91 | writing the byte-reversed spelling of an instruction makes the fetch path read the instruction itself |
| Memory.LoadAfterStoreElsewhere | test/arm7tdmi.spec.js:104-106 | a write leaves every non-overlapping word unchanged |
| Memory.LoadZeroes | test/arm7tdmi.spec.js:11 | every word of a freshly created memory unit reads as zero |
| Memory.Mmu.constructor | test/arm7tdmi.spec.js:11 | a new memory unit is a fresh byte array of the given size, all zero |
| Memory.Mmu.WriteWord | test/arm7tdmi.spec.js:16-18 | the array afterwards is StoreWord of the array before |
| Memory.Mmu.ReadWord | test/arm7tdmi.spec.js:22-24 | the result is LoadWord of the array |
| Status.GetNZCVQ | test/arm7tdmi.spec.js:72-75 | the result g is below 32, and cpsr lies in [g * 2^27, (g + 1) * 2^27): the top five bits |
| Status.Pack | test/arm7tdmi.spec.js:74 | the packed group is below 32 and has N as its top bit |
| Status.PackOfUnpack | test/arm7tdmi.spec.js:74 | unpacking then packing a 5-bit group is the identity |
| Status.UnpackOfPack | test/arm7tdmi.spec.js:74 | packing then unpacking five flags is the identity |
| Status.WithFlags | test/arm7tdmi.spec.js:211-220 | the flag write of a compare (and of setFlag, src/ui/controller.js:19-21): the new status word holds exactly the given flags and keeps bits 26-0 |
| Status.WithOwnFlags | src/ui/controller.js:19-21 | writing back a status word's own flags changes nothing |
| Status.FlagMask | src/ui/controller.js:19-21 | the weight is a 32-bit multiple of 2^27 in which the named flag is set and the other four are clear, which fixes it as that flag's single bit |
| Status.GetFlagIsBit | src/ui/controller.js:19-21 | a named flag is set exactly when its own bit of cpsr is 1 |
| Status.SetFlag | src/ui/controller.js:19-21 | the named flag takes the value; the other four flags and bits 26-0 keep theirs |
| Status.SetFlagIdempotent | src/ui/controller.js:19-21 | setting a flag to its current value leaves cpsr unchanged |
| Decoder.RnField | test/arm7tdmi.spec.js:81-92 | the operand register number is below 16 |
| Decoder.Decode | test/arm7tdmi.spec.js:92-120 | each iff holds: nop for the all-zero word, cmp for CMP-immediate, b for B. A cmp carries Rn's value and the immediate; a b carries the target; anything else is Unknown with its word |
| Decoder.DecodeReadsOnlyRn | test/arm7tdmi.spec.js:81-92 | the decoding depends on the registers only through Rn's value, and only for cmp |
| Decoder.BranchTarget | test/arm7tdmi.spec.js:128-194 | the target is address + 8 + 4 * the sign-extended 24-bit offset, modulo 2^32 |
| Decoder.BranchTargetAligned | test/arm7tdmi.spec.js:138 | a branch from a word-aligned address lands on a word-aligned address |
| Decoder.SelfBranchIff | test/arm7tdmi.spec.js:183-195 | a branch targets its own address exactly when its offset field is 0xFFFFFE (-2) |
| Decoder.DecodeEncodeCmp | test/arm7tdmi.spec.js:86-97 | decoding the word of CMP Rn, #imm gives cmp with Rn's value and imm |
| Decoder.DecodeEncodeBranch | test/arm7tdmi.spec.js:130-139 | decoding the word of B with signed offset k gives the target address + 8 + 4k modulo 2^32 |
| Decoder.DecodeExamples | test/arm7tdmi.spec.js:92-195 | the eight concrete decodings the test asserts |
| Decoder.BranchOffsetExamples | test/arm7tdmi.spec.js:127-199 | the test's toSigned(reverseBytes(offset)) * 4 + pc + 16 gives 0x38, 0xe8 and 0x108 |
| Pipeline.Registers | test/arm7tdmi.spec.js:28-44 | the decoder sees 16 registers: r0-r14, then pc as it is at the start of the cycle as r15 |
| Pipeline.DecodeSeesFetchAddressPlus4 | test/arm7tdmi.spec.js:28-36 | in a coherent state with no branch decoded, the r15 the decoder reads is the decoded word's fetch address + 4 |
| Pipeline.ExecuteFlags | test/arm7tdmi.spec.js:211-220 | a cmp sets Z iff lhs == imm and N iff the 32-bit difference has bit 31 set, leaving C, V, Q and bits 26-0 unchanged; anything else leaves cpsr unchanged |
| Pipeline.Step | test/arm7tdmi.spec.js:89-207 | a cycle keeps r0-r14, sets cpsr to the executed instruction's flags (ExecuteFlags), fetches a word that is memory's word at its address, and leaves the pipeline coherent |
| Pipeline.CoherentFetchIsSequential | test/arm7tdmi.spec.js:89-97 | in a coherent state the next fetch is the decoded branch's target, and otherwise the word after the last one fetched |
| Pipeline.StepSequential | test/arm7tdmi.spec.js:89-97 | with no branch in decode or execute: pc + 4, the old fetched word decoded, and the word at the old pc fetched |
| Pipeline.StepDecodesBranch | test/arm7tdmi.spec.js:113-116 | the cycle that decodes a branch fetches its target at once, and pc only advances by 4 |
| Pipeline.StepExecutesBranch | test/arm7tdmi.spec.js:118-121 | the cycle that executes a branch sets pc to target + 8, keeps cpsr, and decodes the word fetched before it |
| Pipeline.StepExecutesBranchFetch | test/arm7tdmi.spec.js:142-146 | when that cycle decodes no branch, it fetches the word at target + 4 |
| Pipeline.FixedPointIffSpinning | test/arm7tdmi.spec.js:198-207 | a cycle leaves the state unchanged exactly when the pipeline is spinning |
| Pipeline.SelfBranchStartsSpin | test/arm7tdmi.spec.js:193-202 | decoding a branch to its own fetch address leaves the pipeline spinning after the next cycle |
| Pipeline.SpinsForever | test/arm7tdmi.spec.js:198-207 | a spinning pipeline stays as it is for any number of cycles |
| Pipeline.CompareEqualSetsZ | test/arm7tdmi.spec.js:212-219 | executing cmp 1, 1 with C, V and Q clear gives NZCVQ = 0b01000, and pc advances by 4 |
| Cpu.Arm7tdmi.constructor | test/arm7tdmi.spec.js:11 | a CPU over the given memory unit whose state is the given start-up state |
| Cpu.Arm7tdmi.GetNZCVQ | test/arm7tdmi.spec.js:74 | the result g is below 32 and the CPU's cpsr lies in [g * 2^27, (g + 1) * 2^27): its top five bits |
| Cpu.Arm7tdmi.Memory | src/ui/controller.js:23-25 | getMemory: a snapshot of the memory unit with its length and every byte |
| Cpu.Arm7tdmi.SetFlag | src/ui/controller.js:19-21 | cpsr becomes Status.SetFlag of the old cpsr; nothing else changes |
| Cpu.Arm7tdmi.Cycle | test/arm7tdmi.spec.js:89-207 | the in-place cycle performs exactly one Step; memory and r0-r14 are untouched |
| Scenarios.ReadMemoryArray | test/arm7tdmi.spec.js:66-69 | writing 0x01020304 at 0x100 and reading it back gives 0x04030201 |
| Scenarios.ReadFlags | test/arm7tdmi.spec.js:72-75 | cpsr = 0xf8000000 gives NZCVQ = 0b11111 |
| Scenarios.PipelineMemory | test/arm7tdmi.spec.js:86-87 | the two compare words written are fetched as 0xe3530000 and 0xe3540000 |
| Scenarios.PipelineSteps | test/arm7tdmi.spec.js:89-97 | the pc, fetched and decoded values after each of the two cycles |
| Scenarios.ExecuteInPipeline | test/arm7tdmi.spec.js:78-98 | the Cpu object reproduces the case's six assertions |
| Scenarios.BranchingMemory | test/arm7tdmi.spec.js:104-106 | the three words written are fetched as 0xea000018, 0xe35e0000 and 0xffffffff |
| Scenarios.BranchingSteps | test/arm7tdmi.spec.js:108-121 | the states after three cycles: branch fetched, branch decoded with its target fetched, branch executed |
| Scenarios.BranchingBoot | test/arm7tdmi.spec.js:100-106 | the case's set-up gives the stated registers, slots and memory |
| Scenarios.FetchDecodeExecuteBranch | test/arm7tdmi.spec.js:99-122 | the Cpu object reproduces the case's nine assertions |
| Scenarios.Boot | test/arm7tdmi.spec.js:129-130 | a branch case's set-up: pc set and one word written into fresh memory |
| Scenarios.BranchForwardMemory | test/arm7tdmi.spec.js:130-149 | the branch word is fetched as 0xea00000a and the words at its target read zero |
| Scenarios.BranchForwardSteps | test/arm7tdmi.spec.js:132-151 | the states after each of four cycles of the forward branch |
| Scenarios.BranchForward | test/arm7tdmi.spec.js:125-152 | the Cpu object reproduces the case's assertions on fetched, decoded and pc |
| Scenarios.BranchBackwardsMemory | test/arm7tdmi.spec.js:158-177 | the branch word is fetched as 0xeafffff6 and the words at its target read zero |
| Scenarios.BranchBackwardsSteps | test/arm7tdmi.spec.js:160-179 | the states after each of four cycles of the backward branch |
| Scenarios.BranchBackwards | test/arm7tdmi.spec.js:153-180 | the Cpu object reproduces the case's assertions on fetched, decoded and pc |
| Scenarios.BranchToSameAddressSteps | test/arm7tdmi.spec.js:188-196 | the first two states of the spin case, the second one spinning |
| Scenarios.BranchToSameAddress | test/arm7tdmi.spec.js:181-208 | the Cpu object reaches the spin state, and the third and fourth cycles leave it unchanged |
| Scenarios.CompareTwoNumbers | test/arm7tdmi.spec.js:211-220 | after executing cmp 1, 1 the NZCVQ group is 0b01000 and pc has advanced by 4 |

## Left out

- The engine sources `src/arm7tdmi`, `src/mmu`, `src/constants` and `src/utils` are not part of this model. Their behaviour is taken from what the test file asserts about them.
- Pipeline.ExecuteFlags: does not model C and V after a compare. The test's only case leaves C clear, unlike ARM's C = NOT borrow, so the model keeps both as they were.
- Decoder.Decode: recognises CMP only with the AL condition and a zero rotate field, and B only with the AL condition and no link. Immediate rotation, other conditions and every other instruction decode to `Unknown`, which executes as a no-op.
- Memory.StoreWord: the test file fixes only the round trip (a word read back is byte-reversed). Storing the most significant byte first and reading the least significant first is this model's choice. The opposite order gives the same round trip, and the difference shows only in the bytes getMemory (`Cpu.Arm7tdmi.Memory`) exposes.
- Memory.Mmu.constructor: the store's size is a parameter. The engine's `new MMU()` takes none, and its size is not shown.
- Memory.LoadWord: word accesses must lie inside the store (a `requires`). The behaviour of out-of-range and unaligned accesses is not fixed by the test file.
- Cpu.Arm7tdmi.Cycle: requires the next fetch to lie inside memory, for the same reason.
- Cpu.Arm7tdmi.constructor: the start-up values of the registers, `pc`, `cpsr` and the slots come from the engine. The engine is not shown, so they are a parameter (`init`). Scenarios that rely on a start-up value state it as a `requires`:
  - CompareTwoNumbers needs the fetched word zero, C, V and Q clear, and `pc + 4` inside memory;
  - FetchDecodeExecuteBranch needs r14 zero;
  - BranchForward, BranchBackwards and BranchToSameAddress need the decoded slot to hold no branch and the fetched word to be zero (`FreshSlots`). Under this decoder, that is what makes each case's first cycle decode `['nop']`.
- Cpu.Arm7tdmi.SetFlag: the third, notification-token argument has no effect and is dropped.
- Pipeline.Registers: the decoder reads r15 as the pc at the start of the cycle. In a coherent state with no branch decoded, that is the fetch address + 4, not ARM's + 8. The test file never reads r15, so this value is a modelling choice (see DecodeSeesFetchAddressPlus4).
- `getMemory` is the function `Cpu.Arm7tdmi.Memory`. Rendering it, and the rest of the UI controller, is presentation and is left out.
- The test harness's monkey-patched accessors (`setPC`, `setR1`, `getFetched`, ...) are plain field reads and writes of the class.
- `_logPC`, timing, interrupts and peripherals are left out.
