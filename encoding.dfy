/** Bit-level layout of the MIPS words the assembler emits: the R-type and
    I-type instruction formats, the operand range checks and the big-endian
    byte order of the output. */
module Encoding {

  import opened Wrappers

  type Word = bv32
  type Byte = bv8

  const TwoTo32: int := 0x1_0000_0000
  const TwoTo16: int := 0x1_0000

  /** The C++ conversion of a 64-bit value to a 32-bit `int`: keep the low
      32 bits and read them as two's complement. The range checks receive
      their operand through this conversion. */
  function Narrow32(v: int): (r: int)
    ensures -0x8000_0000 <= r < 0x8000_0000
    ensures (v - r) % TwoTo32 == 0
    ensures -0x8000_0000 <= v < 0x8000_0000 ==> r == v
  {
    (v + 0x8000_0000) % TwoTo32 - 0x8000_0000
  }

  /** The register check: a register number must lie in 0..31. */
  predicate RegInRange(r: int) { 0 <= r <= 31 }

  /** The check on a decimal immediate: -32768..32767. */
  predicate DecImmInRange(i: int) { -32768 <= i <= 32767 }

  /** The check on a hexadecimal immediate: 0..65535. */
  predicate HexImmInRange(i: int) { 0 <= i <= 65535 }

  // Field extraction, by the MIPS instruction formats.
  function Opcode(w: Word): bv32 { w >> 26 }
  function Rs(w: Word): bv32 { (w >> 21) & 31 }
  function Rt(w: Word): bv32 { (w >> 16) & 31 }
  function Rd(w: Word): bv32 { (w >> 11) & 31 }
  function Shamt(w: Word): bv32 { (w >> 6) & 31 }
  function Funct(w: Word): bv32 { w & 63 }
  function Imm(w: Word): bv32 { w & 0xffff }

  /** `(s<<21)|(t<<16)|(d<<11)|funct`: the register format. */
  function RType(s: bv32, t: bv32, d: bv32, funct: bv32): (w: Word)
    requires s < 32 && t < 32 && d < 32 && funct < 64
    ensures Opcode(w) == 0 && Shamt(w) == 0 && Funct(w) == funct
    ensures Rs(w) == s && Rt(w) == t && Rd(w) == d
  {
    RFields(s, t, d, funct);
    (s << 21) | (t << 16) | (d << 11) | funct
  }

  lemma RFields(s: bv32, t: bv32, d: bv32, funct: bv32)
    requires s < 32 && t < 32 && d < 32 && funct < 64
    ensures var w := (s << 21) | (t << 16) | (d << 11) | funct;
      Opcode(w) == 0 && Shamt(w) == 0 && Funct(w) == funct && Rs(w) == s && Rt(w) == t && Rd(w) == d
  {
  }

  /** `op<<26 | s<<21 | t<<16 | imm`: the immediate format. */
  function IType(op: bv32, s: bv32, t: bv32, imm: bv32): (w: Word)
    requires op < 64 && s < 32 && t < 32 && imm < 0x1_0000
    ensures Opcode(w) == op && Rs(w) == s && Rt(w) == t && Imm(w) == imm
  {
    IFields(op, s, t, imm);
    (op << 26) | (s << 21) | (t << 16) | imm
  }

  lemma IFields(op: bv32, s: bv32, t: bv32, imm: bv32)
    requires op < 64 && s < 32 && t < 32 && imm < 0x1_0000
    ensures var w := (op << 26) | (s << 21) | (t << 16) | imm;
      Opcode(w) == op && Rs(w) == s && Rt(w) == t && Imm(w) == imm
  {
  }

  /** The low 16 bits of a (possibly negative) immediate, as `imm & 0xffff`
      computes them on a two's-complement value. */
  function Low16(imm: int): (r: bv32)
    ensures r < 0x1_0000
  {
    (imm % TwoTo16) as bv32
  }

  /** The low 32 bits of a value, as the output routine writes them. */
  function Low32(v: int): (r: Word)
  {
    (v % TwoTo32) as bv32
  }

  /** The machine instructions the assembler knows, with their register
      numbers and 16-bit immediates as bit fields. */
  datatype Instr =
    | Add(d: bv32, s: bv32, t: bv32) | Sub(d: bv32, s: bv32, t: bv32)
    | Slt(d: bv32, s: bv32, t: bv32) | Sltu(d: bv32, s: bv32, t: bv32)
    | Mult(s: bv32, t: bv32) | Multu(s: bv32, t: bv32)
    | Div(s: bv32, t: bv32) | Divu(s: bv32, t: bv32)
    | Mfhi(d: bv32) | Mflo(d: bv32) | Lis(d: bv32)
    | Lw(t: bv32, imm: bv32, s: bv32) | Sw(t: bv32, imm: bv32, s: bv32)
    | Beq(s: bv32, t: bv32, imm: bv32) | Bne(s: bv32, t: bv32, imm: bv32)
    | Jr(s: bv32) | Jalr(s: bv32)

  /** Every register field below 32 and every immediate below 2^16. */
  predicate WellFormed(i: Instr)
  {
    match i
    case Add(d, s, t) => d < 32 && s < 32 && t < 32
    case Sub(d, s, t) => d < 32 && s < 32 && t < 32
    case Slt(d, s, t) => d < 32 && s < 32 && t < 32
    case Sltu(d, s, t) => d < 32 && s < 32 && t < 32
    case Mult(s, t) => s < 32 && t < 32
    case Multu(s, t) => s < 32 && t < 32
    case Div(s, t) => s < 32 && t < 32
    case Divu(s, t) => s < 32 && t < 32
    case Mfhi(d) => d < 32
    case Mflo(d) => d < 32
    case Lis(d) => d < 32
    case Lw(t, imm, s) => t < 32 && s < 32 && imm < 0x1_0000
    case Sw(t, imm, s) => t < 32 && s < 32 && imm < 0x1_0000
    case Beq(s, t, imm) => s < 32 && t < 32 && imm < 0x1_0000
    case Bne(s, t, imm) => s < 32 && t < 32 && imm < 0x1_0000
    case Jr(s) => s < 32
    case Jalr(s) => s < 32
  }

  /** The word the assembler emits for an instruction, with the funct codes
      add 0x20, sub 0x22, slt 0x2A, sltu 0x2B, mult 0x18, multu 0x19,
      div 0x1A, divu 0x1B, mfhi 0x10, mflo 0x12, lis 0x14, jr 0x8, jalr 0x9
      and the opcodes lw 0x23, sw 0x2B, beq 4, bne 5. */
  function Encode(i: Instr): Word
    requires WellFormed(i)
  {
    match i
    case Add(d, s, t) => RType(s, t, d, 0x20)
    case Sub(d, s, t) => RType(s, t, d, 0x22)
    case Slt(d, s, t) => RType(s, t, d, 0x2A)
    case Sltu(d, s, t) => RType(s, t, d, 0x2B)
    case Mult(s, t) => RType(s, t, 0, 0x18)
    case Multu(s, t) => RType(s, t, 0, 0x19)
    case Div(s, t) => RType(s, t, 0, 0x1A)
    case Divu(s, t) => RType(s, t, 0, 0x1B)
    case Mfhi(d) => RType(0, 0, d, 0x10)
    case Mflo(d) => RType(0, 0, d, 0x12)
    case Lis(d) => RType(0, 0, d, 0x14)
    case Lw(t, imm, s) => IType(0x23, s, t, imm)
    case Sw(t, imm, s) => IType(0x2B, s, t, imm)
    case Beq(s, t, imm) => IType(4, s, t, imm)
    case Bne(s, t, imm) => IType(5, s, t, imm)
    case Jr(s) => RType(s, 0, 0, 0x8)
    case Jalr(s) => RType(s, 0, 0, 0x9)
  }

  /** A MIPS decoder for the same instruction set, reading opcode and funct. */
  function Decode(w: Word): Option<Instr>
  {
    var op := Opcode(w);
    if op == 0 then
      var f := Funct(w);
      if f == 0x20 then Some(Add(Rd(w), Rs(w), Rt(w)))
      else if f == 0x22 then Some(Sub(Rd(w), Rs(w), Rt(w)))
      else if f == 0x2A then Some(Slt(Rd(w), Rs(w), Rt(w)))
      else if f == 0x2B then Some(Sltu(Rd(w), Rs(w), Rt(w)))
      else if f == 0x18 then Some(Mult(Rs(w), Rt(w)))
      else if f == 0x19 then Some(Multu(Rs(w), Rt(w)))
      else if f == 0x1A then Some(Div(Rs(w), Rt(w)))
      else if f == 0x1B then Some(Divu(Rs(w), Rt(w)))
      else if f == 0x10 then Some(Mfhi(Rd(w)))
      else if f == 0x12 then Some(Mflo(Rd(w)))
      else if f == 0x14 then Some(Lis(Rd(w)))
      else if f == 0x8 then Some(Jr(Rs(w)))
      else if f == 0x9 then Some(Jalr(Rs(w)))
      else None
    else if op == 0x23 then Some(Lw(Rt(w), Imm(w), Rs(w)))
    else if op == 0x2B then Some(Sw(Rt(w), Imm(w), Rs(w)))
    else if op == 4 then Some(Beq(Rs(w), Rt(w), Imm(w)))
    else if op == 5 then Some(Bne(Rs(w), Rt(w), Imm(w)))
    else None
  }

  /** The encoding loses nothing: decoding an emitted word gives back the instruction. */
  lemma DecodeEncode(i: Instr)
    requires WellFormed(i)
    ensures Decode(Encode(i)) == Some(i)
  {
    if i.Add? || i.Sub? || i.Slt? || i.Sltu? {
      DecodeThreeRegister(i);
    } else if i.Mult? || i.Multu? || i.Div? || i.Divu? {
      DecodeTwoRegister(i);
    } else if i.Lw? || i.Sw? || i.Beq? || i.Bne? {
      DecodeImmediate(i);
    } else {
      DecodeOneRegister(i);
    }
  }

  lemma DecodeThreeRegister(i: Instr)
    requires WellFormed(i) && (i.Add? || i.Sub? || i.Slt? || i.Sltu?)
    ensures Decode(Encode(i)) == Some(i)
  {
  }

  lemma DecodeTwoRegister(i: Instr)
    requires WellFormed(i) && (i.Mult? || i.Multu? || i.Div? || i.Divu?)
    ensures Decode(Encode(i)) == Some(i)
  {
  }

  lemma DecodeOneRegister(i: Instr)
    requires WellFormed(i) && (i.Mfhi? || i.Mflo? || i.Lis? || i.Jr? || i.Jalr?)
    ensures Decode(Encode(i)) == Some(i)
  {
    if i.Mfhi? || i.Mflo? || i.Lis? {
      DecodeDestination(i);
    } else {
      DecodeJump(i);
    }
  }

  lemma DecodeDestination(i: Instr)
    requires WellFormed(i) && (i.Mfhi? || i.Mflo? || i.Lis?)
    ensures Decode(Encode(i)) == Some(i)
  {
  }

  lemma DecodeJump(i: Instr)
    requires WellFormed(i) && (i.Jr? || i.Jalr?)
    ensures Decode(Encode(i)) == Some(i)
  {
  }

  lemma DecodeImmediate(i: Instr)
    requires WellFormed(i) && (i.Lw? || i.Sw? || i.Beq? || i.Bne?)
    ensures Decode(Encode(i)) == Some(i)
  {
  }

  /** The output routine: the word as four bytes, most significant first. */
  function WordBytes(w: Word): (b: seq<Byte>)
    ensures |b| == 4
    ensures b[0] as bv32 == w >> 24 && b[3] as bv32 == w & 0xff
    ensures WordOf(b) == w
  {
    [((w >> 24) & 0xff) as bv8, ((w >> 16) & 0xff) as bv8,
     ((w >> 8) & 0xff) as bv8, (w & 0xff) as bv8]
  }

  /** Reads four bytes back as a big-endian word. */
  function WordOf(b: seq<Byte>): Word
    requires |b| == 4
  {
    ((b[0] as bv32) << 24) | ((b[1] as bv32) << 16) | ((b[2] as bv32) << 8) | (b[3] as bv32)
  }

  lemma BytesRoundTrip(b: seq<Byte>)
    requires |b| == 4
    ensures WordBytes(WordOf(b)) == b
  {
    var w := WordOf(b);
    assert WordBytes(w)[0] == b[0];
    assert WordBytes(w)[1] == b[1];
    assert WordBytes(w)[2] == b[2];
    assert WordBytes(w)[3] == b[3];
  }

  /** An instruction that passed the range checks. */
  type CheckedInstr = i: Instr | WellFormed(i) witness Jr(0)

  /** One emitted unit: an encoded instruction or a raw `.word` value. */
  datatype Item = Code(instr: CheckedInstr) | Data(word: Word)

  function ItemWord(it: Item): Word
  {
    match it
    case Code(i) => Encode(i)
    case Data(w) => w
  }

  /** The output bytes of a sequence of items, in order. */
  function Bytes(items: seq<Item>): (b: seq<Byte>)
    ensures |b| == 4 * |items|
    decreases |items|
  {
    if items == [] then [] else Bytes(items[..|items| - 1]) + WordBytes(ItemWord(items[|items| - 1]))
  }

  /** The k-th group of four output bytes is the k-th item's word, most significant byte first. */
  lemma {:induction false} BytesAt(items: seq<Item>, k: nat)
    requires k < |items|
    ensures Bytes(items)[4 * k .. 4 * k + 4] == WordBytes(ItemWord(items[k]))
    decreases |items|
  {
    var n := |items| - 1;
    if k < n {
      BytesAt(items[..n], k);
      assert items[..n][k] == items[k];
      assert Bytes(items)[4 * k .. 4 * k + 4] == Bytes(items[..n])[4 * k .. 4 * k + 4];
    }
  }

  lemma {:induction false} BytesAppend(a: seq<Item>, b: seq<Item>)
    ensures Bytes(a + b) == Bytes(a) + Bytes(b)
    decreases |b|
  {
    if b != [] {
      var n := |b| - 1;
      assert (a + b)[..|a + b| - 1] == a + b[..n];
      BytesAppend(a, b[..n]);
    } else {
      assert a + b == a;
    }
  }
}
