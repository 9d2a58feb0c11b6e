/** Redcode as ICWS'94 defines it: opcodes, modifiers, addressing modes and the
    instruction (src/redcode.rs). */
module Redcode {
  import Bits

  datatype Option<+T> = None | Some(value: T)

  datatype Opcode =
    | Dat | Mov | Add | Sub | Mul | Div | Mod | Jmp | Jmz | Jmn | Djn | Spl
    | Slt | Cmp | Seq | Sne | Nop | Ldp | Stp

  // A is written MA and B is written MB: the plain letters name fields.
  datatype Modifier = MA | MB | MAB | MBA | MF | MX | MI

  datatype Mode =
    | Immediate | Direct | AIndirect | BIndirect
    | APredec | BPredec | APostinc | BPostinc

  datatype Instruction = Instruction(
    op: Opcode, modifier: Modifier, aMode: Mode, a: nat, bMode: Mode, b: nat)

  /** The empty core cell: DAT.F $0, $0. */
  const EMPTY := Instruction(Dat, MF, Direct, 0, Direct, 0)

  datatype Warrior = Warrior(code: seq<Instruction>, start: nat, pin: Option<int>)

  /** A warrior whose numbers are normalised for a core of `cs` cells. */
  predicate Normalised(cs: nat, i: Instruction) {
    i.a < cs && i.b < cs
  }

  predicate NormalisedCode(cs: nat, code: seq<Instruction>) {
    forall k :: 0 <= k < |code| ==> Normalised(cs, code[k])
  }

  predicate NormalisedWarrior(cs: nat, w: Warrior) {
    w.start < cs && NormalisedCode(cs, w.code)
  }

  function DefaultModifier(op: Opcode, aMode: Mode, bMode: Mode): Modifier {
    match op
    case Dat | Nop => MF
    case Mov | Cmp | Seq | Sne =>
      if aMode == Immediate then MAB else if bMode == Immediate then MB else MI
    case Add | Sub | Mul | Div | Mod =>
      if aMode == Immediate then MAB else if bMode == Immediate then MB else MF
    case Slt | Ldp | Stp =>
      if aMode == Immediate then MAB else MB
    case Jmp | Jmz | Jmn | Djn | Spl => MB
  }

  /** The rendering of a normalised field in a listing: numbers above half the
      core are shown as negative offsets. */
  function Signed(v: nat, cs: nat): (r: int)
    requires v < cs
    ensures -(cs as int) < 2 * r <= cs && r % cs == v
  {
    if v > cs / 2 then Bits.ModUnique(v - cs, cs, -1, v); v - cs else v
  }
}
