/**
 * The status register (cpsr). Its top five bits are the condition flags
 * N (bit 31), Z (bit 30), C (bit 29), V (bit 28) and Q (bit 27); getNZCVQ
 * reads them as one 5-bit number, N being its most significant bit.
 */
module Status {
  import opened Words

  /** The weight of bit 27, the lowest flag bit. */
  const FLAG_UNIT: int := 0x800_0000

  /** The five condition flags, one field each. */
  datatype Flags = Flags(n: bool, z: bool, c: bool, v: bool, q: bool)

  /** The flag names the controller passes to setFlag. */
  datatype FlagName = N | Z | C | V | Q

  /** getNZCVQ: the top five bits of the status word. */
  function GetNZCVQ(cpsr: Word): (r: nat)
    ensures r < 32
    ensures r * FLAG_UNIT <= cpsr < (r + 1) * FLAG_UNIT
  {
    cpsr / 0x800_0000
  }

  /** The packed 5-bit group N Z C V Q, N being bit 4 and Q bit 0. */
  function Pack(f: Flags): (r: nat)
    ensures r < 32
    ensures f.n <==> r >= 16
  {
    (if f.n then 16 else 0) + (if f.z then 8 else 0) + (if f.c then 4 else 0)
      + (if f.v then 2 else 0) + (if f.q then 1 else 0)
  }

  /** The flags named by a 5-bit group. */
  function Unpack(g: nat): Flags
    requires g < 32
  {
    Flags(g >= 16, (g / 8) % 2 == 1, (g / 4) % 2 == 1, (g / 2) % 2 == 1, g % 2 == 1)
  }

  /** Unpacking a 5-bit group and packing it again gives the group back. */
  lemma PackOfUnpack(g: nat)
    requires g < 32
    ensures Pack(Unpack(g)) == g
  {
  }

  /** Packing five flags and unpacking them again gives the flags back. */
  lemma UnpackOfPack(f: Flags)
    ensures Unpack(Pack(f)) == f
  {
  }

  /** The flags held by a status word. */
  function FlagsOf(cpsr: Word): Flags
  {
    Unpack(GetNZCVQ(cpsr))
  }

  /** A status word with the given flags and the lower 27 bits of cpsr. */
  function WithFlags(cpsr: Word, f: Flags): (r: Word)
    ensures FlagsOf(r) == f
    ensures GetNZCVQ(r) == Pack(f)
    ensures r % FLAG_UNIT == cpsr % FLAG_UNIT
  {
    var r := Pack(f) * 0x800_0000 + cpsr % 0x800_0000;
    assert r / 0x800_0000 == Pack(f);
    UnpackOfPack(f);
    r
  }

  /** Writing back a status word's own flags changes nothing. */
  lemma WithOwnFlags(cpsr: Word)
    ensures WithFlags(cpsr, FlagsOf(cpsr)) == cpsr
  {
    PackOfUnpack(GetNZCVQ(cpsr));
  }

  /** The value of one named flag. */
  function GetFlag(cpsr: Word, name: FlagName): bool
  {
    var f := FlagsOf(cpsr);
    match name
    case N => f.n
    case Z => f.z
    case C => f.c
    case V => f.v
    case Q => f.q
  }

  /** The weight of a named flag's bit: N is bit 31, Z bit 30, C bit 29, V bit 28, Q bit 27. */
  function FlagMask(name: FlagName): (m: nat)
    ensures m < 0x1_0000_0000 && m % FLAG_UNIT == 0
    ensures GetFlag(m, name)
    ensures forall other: FlagName :: other != name ==> !GetFlag(m, other)
  {
    match name
    case N => 0x8000_0000
    case Z => 0x4000_0000
    case C => 0x2000_0000
    case V => 0x1000_0000
    case Q => 0x800_0000
  }

  /** GetFlag reads the status word's own bit for that flag. */
  lemma GetFlagIsBit(cpsr: Word, name: FlagName)
    ensures GetFlag(cpsr, name) <==> (cpsr / FlagMask(name)) % 2 == 1
  {
    var g := cpsr / 0x800_0000;
    match name
    case N => assert cpsr / 0x8000_0000 == g / 16;
    case Z => assert cpsr / 0x4000_0000 == g / 8;
    case C => assert cpsr / 0x2000_0000 == g / 4;
    case V => assert cpsr / 0x1000_0000 == g / 2;
    case Q =>
  }

  /**
   * setFlag(flag, value): the named flag takes value; the other four flags
   * and bits 26-0 keep theirs.
   */
  function SetFlag(cpsr: Word, name: FlagName, value: bool): (r: Word)
    ensures GetFlag(r, name) == value
    ensures forall other: FlagName :: other != name ==> GetFlag(r, other) == GetFlag(cpsr, other)
    ensures r % FLAG_UNIT == cpsr % FLAG_UNIT
  {
    var f := FlagsOf(cpsr);
    var g := match name
      case N => f.(n := value)
      case Z => f.(z := value)
      case C => f.(c := value)
      case V => f.(v := value)
      case Q => f.(q := value);
    WithFlags(cpsr, g)
  }

  /** Setting a flag to the value it already has leaves the status word as it was. */
  lemma SetFlagIdempotent(cpsr: Word, name: FlagName)
    ensures SetFlag(cpsr, name, GetFlag(cpsr, name)) == cpsr
  {
    WithOwnFlags(cpsr);
  }
}
