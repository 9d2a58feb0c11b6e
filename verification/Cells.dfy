/** The packed cell of the fast engine (src/fast.rs:22-182): two 16-bit numbers,
    one byte for opcode and modifier, one for each mode. */
module Cells {
  import Bits
  import opened Redcode

  newtype u8 = x: int | 0 <= x < 0x100
  newtype u16 = x: int | 0 <= x < 0x1_0000
  newtype u32 = x: int | 0 <= x < 0x1_0000_0000

  datatype Cell = Cell(a: u16, b: u16, opm: u8, am: u8, bm: u8)

  const O_DAT: u8 := 0
  const O_MOV: u8 := 1
  const O_ADD: u8 := 2
  const O_SUB: u8 := 3
  const O_MUL: u8 := 4
  const O_DIV: u8 := 5
  const O_MOD: u8 := 6
  const O_JMP: u8 := 7
  const O_JMZ: u8 := 8
  const O_JMN: u8 := 9
  const O_DJN: u8 := 10
  const O_SPL: u8 := 11
  const O_SLT: u8 := 12
  const O_CMP: u8 := 13
  const O_SEQ: u8 := 14
  const O_SNE: u8 := 15
  const O_NOP: u8 := 16
  const O_LDP: u8 := 17
  const O_STP: u8 := 18

  const M_F: u8 := 0
  const M_A: u8 := 1
  const M_B: u8 := 2
  const M_AB: u8 := 3
  const M_BA: u8 := 4
  const M_X: u8 := 5
  const M_I: u8 := 6

  const DIRECT: u8 := 0
  const IMMEDIATE: u8 := 1
  const A_IND: u8 := 2
  const B_IND: u8 := 3
  const A_PRE: u8 := 4
  const B_PRE: u8 := 5
  const A_POST: u8 := 6
  const B_POST: u8 := 7

  function EncOp(o: Opcode): u8 {
    match o
    case Dat => O_DAT
    case Mov => O_MOV
    case Add => O_ADD
    case Sub => O_SUB
    case Mul => O_MUL
    case Div => O_DIV
    case Mod => O_MOD
    case Jmp => O_JMP
    case Jmz => O_JMZ
    case Jmn => O_JMN
    case Djn => O_DJN
    case Spl => O_SPL
    case Slt => O_SLT
    case Cmp => O_CMP
    case Seq => O_SEQ
    case Sne => O_SNE
    case Nop => O_NOP
    case Ldp => O_LDP
    case Stp => O_STP
  }

  function EncMod(m: Modifier): u8 {
    match m
    case MF => M_F
    case MA => M_A
    case MB => M_B
    case MAB => M_AB
    case MBA => M_BA
    case MX => M_X
    case MI => M_I
  }

  function EncMode(m: Mode): u8 {
    match m
    case Direct => DIRECT
    case Immediate => IMMEDIATE
    case AIndirect => A_IND
    case BIndirect => B_IND
    case APredec => A_PRE
    case BPredec => B_PRE
    case APostinc => A_POST
    case BPostinc => B_POST
  }

  const OPCODES: seq<Opcode> := [
    Dat, Mov, Add, Sub, Mul, Div, Mod, Jmp, Jmz, Jmn, Djn, Spl, Slt, Cmp, Seq, Sne, Nop, Ldp, Stp]

  const MODIFIERS: seq<Modifier> := [MF, MA, MB, MAB, MBA, MX, MI]

  const MODES: seq<Mode> := [Direct, Immediate, AIndirect, BIndirect, APredec, BPredec, APostinc, BPostinc]

  /** `as u16`. */
  function Low16(n: nat): u16 {
    (n % 0x1_0000) as u16
  }

  function Encode(i: Instruction): (c: Cell)
    ensures ValidCell(c)
  {
    Cell(Low16(i.a), Low16(i.b), EncOp(i.op) * 8 + EncMod(i.modifier), EncMode(i.aMode), EncMode(i.bMode))
  }

  /** The bytes the tables below, and the dispatch, have an entry for. */
  predicate ValidCell(c: Cell) {
    c.opm / 8 < 19 && c.opm % 8 < 7 && c.am < 8 && c.bm < 8
  }

  function Decode(c: Cell): Instruction
    requires ValidCell(c)
  {
    Instruction(
      OPCODES[c.opm / 8], MODIFIERS[c.opm % 8],
      MODES[c.am], c.a as nat,
      MODES[c.bm], c.b as nat)
  }

  lemma OpcodeTable(n: u8)
    requires n < 19
    ensures EncOp(OPCODES[n]) == n
  {
  }

  lemma ModifierTable(n: u8)
    requires n < 7
    ensures EncMod(MODIFIERS[n]) == n
  {
  }

  lemma ModeTable(n: u8)
    requires n < 8
    ensures EncMode(MODES[n]) == n
  {
  }

  lemma TablesInvert(i: Instruction)
    ensures OPCODES[EncOp(i.op)] == i.op && MODIFIERS[EncMod(i.modifier)] == i.modifier
    ensures MODES[EncMode(i.aMode)] == i.aMode && MODES[EncMode(i.bMode)] == i.bMode
  {
    hide EncOp, EncMod, EncMode;
    OpcodeInverts(i.op);
    ModifierInverts(i.modifier);
    ModeInverts(i.aMode);
    ModeInverts(i.bMode);
  }

  lemma OpcodeInverts(op: Opcode)
    ensures OPCODES[EncOp(op)] == op
  {
  }

  lemma ModifierInverts(m: Modifier)
    ensures MODIFIERS[EncMod(m)] == m
  {
  }

  lemma ModeInverts(m: Mode)
    ensures MODES[EncMode(m)] == m
  {
  }

  /** Packing loses nothing of an instruction of a core up to 65536 cells. */
  lemma DecodeEncode(i: Instruction)
    requires i.a < 0x1_0000 && i.b < 0x1_0000
    ensures Decode(Encode(i)) == i
  {
    TablesInvert(i);
    var c := Encode(i);
    assert c.opm / 8 == EncOp(i.op) && c.opm % 8 == EncMod(i.modifier);
  }

  /** Every well-formed cell is the packing of the instruction it reads as. */
  lemma EncodeDecode(c: Cell)
    requires ValidCell(c)
    ensures Encode(Decode(c)) == c
  {
    DecodedCodes(c);
  }

  /** What the dispatch byte and the mode bytes of a cell stand for. */
  lemma DecodedCodes(c: Cell)
    requires ValidCell(c)
    ensures var i := Decode(c);
            && c.opm / 8 == EncOp(i.op) && c.opm % 8 == EncMod(i.modifier)
            && c.am == EncMode(i.aMode) && c.bm == EncMode(i.bMode)
  {
    OpcodeTable(c.opm / 8);
    ModifierTable(c.opm % 8);
    ModeTable(c.am);
    ModeTable(c.bm);
  }

  /** The empty cell is all zeroes, so a core is cleared by zeroing it. */
  lemma ZeroIsEmpty(c: Cell)
    requires c.a == 0 && c.b == 0 && c.opm == 0 && c.am == 0 && c.bm == 0
    ensures ValidCell(c) && Decode(c) == EMPTY
  {
    DecodedCodes(c);
  }

  /** `opm >> 3` and `opm & 7`. */
  function OpOf(opm: u8): (r: u8)
    ensures r == opm / 8
  {
    Bits.ShrIsDiv(opm as nat, 3);
    assert Bits.Pow2(3) == 8;
    Bits.Shr(opm as nat, 3) as u8
  }

  function ModOf(opm: u8): (r: u8)
    ensures r == opm % 8
  {
    Bits.AndMask(opm as nat, 3);
    assert Bits.Pow2(3) == 8;
    Bits.And(opm as nat, 7) as u8
  }

  /** The dispatch has an arm `op * 8 + m` for each of 19 opcodes and 8
      modifier codes; no well-formed cell misses it. */
  lemma DispatchCovers(c: Cell)
    requires ValidCell(c)
    ensures OpOf(c.opm) < 19 && ModOf(c.opm) < 8
    ensures c.opm == OpOf(c.opm) * 8 + ModOf(c.opm)
  {
  }

  // ---- sequences of cells and of numbers ----

  predicate ValidCells(s: seq<Cell>) {
    forall i :: 0 <= i < |s| ==> ValidCell(s[i])
  }

  function DecodeAll(s: seq<Cell>): (r: seq<Instruction>)
    requires ValidCells(s)
    ensures |r| == |s| && forall i :: 0 <= i < |s| ==> r[i] == Decode(s[i])
  {
    seq(|s|, i requires 0 <= i < |s| => Decode(s[i]))
  }

  function EncodeAll(s: seq<Instruction>): (r: seq<Cell>)
    ensures |r| == |s| && ValidCells(r) && forall i :: 0 <= i < |s| ==> r[i] == Encode(s[i])
  {
    seq(|s|, i requires 0 <= i < |s| => Encode(s[i]))
  }

  function Nats(s: seq<u16>): (r: seq<nat>)
    ensures |r| == |s| && forall i :: 0 <= i < |s| ==> r[i] == s[i] as nat
  {
    seq(|s|, i requires 0 <= i < |s| => s[i] as nat)
  }

  // ---- ring buffers ----

  /** The queue a ring buffer holds: `len` entries from `head` on, around. */
  function Ring(buf: seq<u16>, head: nat, len: nat): (r: seq<nat>)
    requires head < |buf| && len <= |buf|
    ensures |r| == len
    ensures forall i :: 0 <= i < len ==> r[i] == buf[Slot(|buf|, head, i)] as nat
  {
    seq(len, i requires 0 <= i < len => buf[Slot(|buf|, head, i)] as nat)
  }

  function Slot(size: nat, head: nat, i: nat): (r: nat)
    requires head < size && i <= size
    ensures r < size
  {
    if head + i < size then head + i else head + i - size
  }

  /** Writing behind the last entry appends, as long as one slot is free. */
  lemma RingPush(buf: seq<u16>, head: nat, len: nat, v: u16)
    requires head < |buf| && len < |buf|
    ensures Ring(buf[Slot(|buf|, head, len) := v], head, len + 1) == Ring(buf, head, len) + [v as nat]
  {
  }

  /** Moving the head on drops the first entry. */
  lemma RingPop(buf: seq<u16>, head: nat, len: nat)
    requires head < |buf| && 0 < len <= |buf|
    ensures Ring(buf, head, len)[0] == buf[head] as nat
    ensures Ring(buf, Slot(|buf|, head, 1), len - 1) == Ring(buf, head, len)[1..]
  {
  }
}
