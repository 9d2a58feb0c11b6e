/** The simulator as a state machine over values: what one instruction does.

    This is the specification both engines are proved against. It follows the
    ICWS'94 draft with the three deviations of src/mars.rs:9-17, but is written
    differently from either engine: a modifier is a selection of number pairs,
    and each operand is evaluated once into a small record. */
module Semantics {
  import Bits
  import opened Redcode
  import opened Configs

  /** `queues[w]`, oldest process first; `bank[w]` is the P-space bank of
      warrior w; `last[w]` is its P-space cell 0. */
  datatype Machine = Machine(
    core: seq<Instruction>, queues: seq<seq<nat>>,
    pspace: seq<seq<nat>>, bank: seq<nat>, last: seq<nat>)

  // ---- well-formed machines ----

  predicate AllBelow(n: nat, s: seq<nat>) {
    forall i :: 0 <= i < |s| ==> s[i] < n
  }

  predicate ValidCore(cs: nat, core: seq<Instruction>) {
    |core| == cs && NormalisedCode(cs, core)
  }

  predicate ValidPspace(cfg: Config, m: Machine) {
    && |m.bank| == 2 && |m.last| == 2
    && AllBelow(|m.pspace|, m.bank)
    && AllBelow(cfg.coreSize, m.last)
    && forall b :: 0 <= b < |m.pspace| ==>
                     |m.pspace[b]| == cfg.PspaceSize() && AllBelow(cfg.coreSize, m.pspace[b])
  }

  predicate ValidQueues(cfg: Config, m: Machine) {
    && |m.queues| == 2
    && forall w :: 0 <= w < 2 ==>
                     |m.queues[w]| <= cfg.maxProcesses && AllBelow(cfg.coreSize, m.queues[w])
  }

  predicate Valid(cfg: Config, m: Machine) {
    && cfg.coreSize >= 2 && cfg.maxProcesses >= 1
    && ValidCore(cfg.coreSize, m.core)
    && ValidQueues(cfg, m)
    && ValidPspace(cfg, m)
  }

  // ---- addresses ----

  /** The sum of two addresses, around the core. */
  function Plus(cs: nat, x: nat, y: nat): (r: nat)
    requires x < cs && y < cs
    ensures r < cs
  {
    if x + y >= cs then x + y - cs else x + y
  }

  function Inc(cs: nat, x: nat): (r: nat)
    requires x < cs
    ensures r < cs
  {
    if x + 1 == cs then 0 else x + 1
  }

  function Dec(cs: nat, x: nat): (r: nat)
    requires x < cs
    ensures r < cs
  {
    if x == 0 then cs - 1 else x - 1
  }

  // ---- numbers of an instruction ----

  datatype Field = FA | FB

  function Get(i: Instruction, f: Field): nat {
    if f.FA? then i.a else i.b
  }

  function Put(i: Instruction, f: Field, v: nat): Instruction {
    if f.FA? then i.(a := v) else i.(b := v)
  }

  /** The number pairs a modifier selects: one number of the A operand with one
      of the B operand, or both with both, straight or crossed. */
  datatype Lanes = One(src: Field, dst: Field) | Both(crossed: bool)

  function Select(m: Modifier): Lanes {
    match m
    case MA => One(FA, FA)
    case MB => One(FB, FB)
    case MAB => One(FA, FB)
    case MBA => One(FB, FA)
    case MF | MI => Both(false)
    case MX => Both(true)
  }

  /** LDP and STP move a single number whatever the modifier: F, X and I act
      as B. */
  function SelectOne(m: Modifier): Lanes {
    if Select(m).One? then Select(m) else One(FB, FB)
  }

  // ---- operands ----

  /** An evaluated operand: the core after its side effects, the cell those
      changed, the pointer and the address it gives, and the numbers found
      there at that moment. */
  datatype Operand = Operand(
    core: seq<Instruction>, touched: seq<nat>, ptr: nat, at: nat, num: Numbers)

  /** The A and B numbers of a cell. */
  datatype Numbers = Numbers(a: nat, b: nat)

  function NumbersOf(i: Instruction): Numbers {
    Numbers(i.a, i.b)
  }

  function Num(n: Numbers, f: Field): nat {
    if f.FA? then n.a else n.b
  }

  predicate Small(cs: nat, n: Numbers) {
    n.a < cs && n.b < cs
  }

  predicate ValidOperand(cs: nat, o: Operand) {
    && ValidCore(cs, o.core) && AllBelow(cs, o.touched)
    && o.ptr < cs && o.at < cs && Small(cs, o.num)
  }

  function Via(mode: Mode): Field {
    if mode.AIndirect? || mode.APredec? || mode.APostinc? then FA else FB
  }

  /** The cell at `p` with the number a predecrement or postincrement changes
      replaced by `v`. */
  function Touch(core: seq<Instruction>, p: nat, f: Field, v: nat): seq<Instruction>
    requires p < |core|
  {
    core[p := Put(core[p], f, v)]
  }

  function Predecrement(cs: nat, core: seq<Instruction>, p: nat, mode: Mode): (r: seq<Instruction>)
    requires ValidCore(cs, core) && p < cs
    ensures ValidCore(cs, r)
  {
    if mode.APredec? || mode.BPredec? then Touch(core, p, Via(mode), Dec(cs, Get(core[p], Via(mode)))) else core
  }

  function Postincrement(cs: nat, core: seq<Instruction>, p: nat, mode: Mode): (r: seq<Instruction>)
    requires ValidCore(cs, core) && p < cs
    ensures ValidCore(cs, r)
  {
    if mode.APostinc? || mode.BPostinc? then Touch(core, p, Via(mode), Inc(cs, Get(core[p], Via(mode)))) else core
  }

  function Evaluate(cs: nat, core: seq<Instruction>, pc: nat, ir: Instruction, mode: Mode, field: nat): (o: Operand)
    requires ValidCore(cs, core) && pc < cs && Normalised(cs, ir) && field < cs
    ensures ValidOperand(cs, o) && o.at == Plus(cs, pc, o.ptr)
    ensures |o.touched| <= 1
  {
    if mode.Immediate? then Operand(core, [], 0, pc, NumbersOf(ir))
    else if mode.Direct? then
      var at := Plus(cs, pc, field);
      Operand(core, [], field, at, NumbersOf(core[at]))
    else
      var p := Plus(cs, pc, field);
      var before := Predecrement(cs, core, p, mode);
      var ptr := Plus(cs, field, Get(before[p], Via(mode)));
      var at := Plus(cs, pc, ptr);
      var after := Postincrement(cs, before, p, mode);
      Operand(after, if mode.AIndirect? || mode.BIndirect? then [] else [p], ptr, at, NumbersOf(before[at]))
  }

  // ---- what an opcode does to the target cell ----

  function Times(cs: nat, x: nat, y: nat): (r: nat)
    requires x < cs && y < cs
    ensures r < cs
  {
    (x * y) % cs
  }

  function Arith(op: Opcode, cs: nat, x: nat, y: nat): (r: nat)
    requires x < cs && y < cs
    ensures r < cs
  {
    match op
    case Add => Plus(cs, x, y)
    case Sub => if x >= y then x - y else x + cs - y
    case Mul => Times(cs, x, y)
    case _ => y
  }

  /** Cell `c` with the selected numbers replaced by `op` of B's and A's. */
  function Combine(op: Opcode, cs: nat, lanes: Lanes, c: Instruction, x: Numbers, y: Numbers): (r: Instruction)
    requires Small(cs, x) && Small(cs, y) && Normalised(cs, c)
    ensures Normalised(cs, r)
  {
    match lanes
    case One(s, d) => Put(c, d, Arith(op, cs, Num(y, d), Num(x, s)))
    case Both(crossed) =>
      c.(a := Arith(op, cs, y.a, if crossed then x.b else x.a),
         b := Arith(op, cs, y.b, if crossed then x.a else x.b))
  }

  function Quotient(op: Opcode, x: nat, y: nat): (r: nat)
    requires y != 0
    ensures r <= x
  {
    if op.Div? then QuotientBound(x, y); x / y
    else QuotientBound(x, y); x % y
  }

  lemma QuotientBound(x: nat, y: nat)
    requires y != 0
    ensures 0 <= x / y <= x && 0 <= x % y <= x
  {
    var q, r := x / y, x % y;
    assert x == q * y + r;
    ProductAtLeast(q, y);
  }

  lemma ProductAtLeast(q: nat, y: nat)
    requires y >= 1
    ensures q * y >= q
  {
    Bits.MulAtLeast(y, q);
    assert q * y == y * q;
  }

  /** A division: the numbers it writes, whether it wrote any, and whether none
      was a division by zero. */
  datatype Division = Division(cell: Instruction, wrote: bool, whole: bool)

  function Divide(op: Opcode, lanes: Lanes, c: Instruction, x: Numbers, y: Numbers): Division {
    match lanes
    case One(s, d) =>
      if Num(x, s) == 0 then Division(c, false, false)
      else Division(Put(c, d, Quotient(op, Num(y, d), Num(x, s))), true, true)
    case Both(crossed) =>
      var ya, yb := if crossed then x.b else x.a, if crossed then x.a else x.b;
      Division(
        c.(a := if ya == 0 then c.a else Quotient(op, y.a, ya),
           b := if yb == 0 then c.b else Quotient(op, y.b, yb)),
        ya != 0 || yb != 0,
        ya != 0 && yb != 0)
  }

  /** Decrement the numbers of `c` that JMZ, JMN and DJN look at. */
  function Decrement(cs: nat, lanes: Lanes, c: Instruction): (r: Instruction)
    requires Normalised(cs, c)
    ensures Normalised(cs, r)
  {
    match lanes
    case One(_, d) => Put(c, d, Dec(cs, Get(c, d)))
    case Both(_) => c.(a := Dec(cs, c.a), b := Dec(cs, c.b))
  }

  predicate AllZero(lanes: Lanes, n: Numbers) {
    match lanes
    case One(_, d) => Num(n, d) == 0
    case Both(_) => n.a == 0 && n.b == 0
  }

  predicate Less(lanes: Lanes, x: Numbers, y: Numbers) {
    match lanes
    case One(s, d) => Num(x, s) < Num(y, d)
    case Both(false) => x.a < y.a && x.b < y.b
    case Both(true) => x.a < y.b && x.b < y.a
  }

  predicate NumbersEqual(lanes: Lanes, x: Numbers, y: Numbers) {
    match lanes
    case One(s, d) => Num(x, s) == Num(y, d)
    case Both(false) => x.a == y.a && x.b == y.b
    case Both(true) => x.a == y.b && x.b == y.a
  }

  predicate SameKind(i: Instruction, j: Instruction) {
    i.op == j.op && i.modifier == j.modifier && i.aMode == j.aMode && i.bMode == j.bMode
  }

  predicate Equal(m: Modifier, core: seq<Instruction>, x: Operand, y: Operand)
    requires x.at < |core| && y.at < |core|
  {
    NumbersEqual(Select(m), x.num, y.num) && (m.MI? ==> SameKind(core[x.at], core[y.at]))
  }

  // ---- P-space ----

  function GetPspace(cfg: Config, m: Machine, w: nat, idx: nat): (v: nat)
    requires ValidPspace(cfg, m) && w < 2 && cfg.coreSize >= 1
    ensures v < cfg.coreSize
  {
    var i := idx % cfg.PspaceSize();
    if i == 0 then m.last[w] else m.pspace[m.bank[w]][i]
  }

  function SetPspace(cfg: Config, m: Machine, w: nat, idx: nat, v: nat): (r: Machine)
    requires ValidPspace(cfg, m) && w < 2 && cfg.coreSize >= 1 && v < cfg.coreSize
    ensures ValidPspace(cfg, r)
    ensures r.core == m.core && r.queues == m.queues && r.bank == m.bank && |r.pspace| == |m.pspace|
  {
    var i := idx % cfg.PspaceSize();
    if i == 0 then m.(last := m.last[w := v])
    else
      var b := m.bank[w];
      var cells: seq<nat> := m.pspace[b][i := v];
      m.(pspace := m.pspace[b := cells])
  }

  // ---- one instruction ----

  /** What executing adds to the machine whose operands are evaluated: the new
      machine, the processes queued, and whether the target cell was written. */
  datatype Effect = Effect(m: Machine, next: seq<nat>, wrote: bool)

  function Write(m: Machine, t: nat, c: Instruction): Machine
    requires t < |m.core|
  {
    m.(core := m.core[t := c])
  }

  /** `m` has the process already taken off the queue and both operands
      evaluated; `room` says whether a second process still fits. */
  function Execute(cfg: Config, m: Machine, w: nat, pc: nat, ir: Instruction, x: Operand, y: Operand,
                   room: bool): (e: Effect)
    requires Valid(cfg, m) && w < 2 && pc < cfg.coreSize
    requires ValidOperand(cfg.coreSize, x) && ValidOperand(cfg.coreSize, y)
  {
    var cs := cfg.coreSize;
    var t := y.at;
    var c := m.core[t];
    var next := Plus(cs, pc, 1);
    var jump := Plus(cs, pc, x.ptr);
    var lanes := Select(ir.modifier);
    match ir.op
    case Dat => Effect(m, [], false)
    case Nop => Effect(m, [next], false)
    case Mov =>
      var base := if ir.modifier.MI? then m.core[x.at] else c;
      Effect(Write(m, t, Combine(Mov, cs, lanes, base, x.num, y.num)), [next], true)
    case Add | Sub | Mul =>
      Effect(Write(m, t, Combine(ir.op, cs, lanes, c, x.num, y.num)), [next], true)
    case Div | Mod =>
      var d := Divide(ir.op, lanes, c, x.num, y.num);
      Effect(Write(m, t, d.cell), if d.whole then [next] else [], d.wrote)
    case Jmp => Effect(m, [jump], false)
    case Jmz => Effect(m, [if AllZero(lanes, y.num) then jump else next], false)
    case Jmn => Effect(m, [if AllZero(lanes, y.num) then next else jump], false)
    case Djn =>
      Effect(Write(m, t, Decrement(cs, lanes, c)),
             [if AllZero(lanes, Numbers(Dec(cs, y.num.a), Dec(cs, y.num.b))) then next else jump], true)
    case Spl => Effect(m, if room then [next, jump] else [next], false)
    case Slt => Effect(m, [if Less(lanes, x.num, y.num) then Skip(cs, pc) else next], false)
    case Cmp | Seq =>
      Effect(m, [if Equal(ir.modifier, m.core, x, y) then Skip(cs, pc) else next], false)
    case Sne =>
      Effect(m, [if Equal(ir.modifier, m.core, x, y) then next else Skip(cs, pc)], false)
    case Ldp =>
      var one := SelectOne(ir.modifier);
      var v := GetPspace(cfg, m, w, Num(x.num, one.src));
      Effect(Write(m, t, Put(c, one.dst, v)), [next], true)
    case Stp =>
      var one := SelectOne(ir.modifier);
      Effect(SetPspace(cfg, m, w, Num(y.num, one.dst), Num(x.num, one.src)), [next], false)
  }

  /** The machine after the instruction, its processes queued. */
  function Performed(cfg: Config, m: Machine, w: nat, pc: nat, ir: Instruction, x: Operand, y: Operand,
                     room: bool): Machine
    requires Valid(cfg, m) && w < 2 && pc < cfg.coreSize
    requires ValidOperand(cfg.coreSize, x) && ValidOperand(cfg.coreSize, y)
  {
    var e := Execute(cfg, m, w, pc, ir, x, y, room);
    var queue: seq<nat> := m.queues[w] + e.next;
    e.m.(queues := m.queues[w := queue])
  }

  /** Two cells on; `cs` is at least 2. */
  function Skip(cs: nat, pc: nat): (r: nat)
    requires pc < cs && cs >= 2
    ensures r < cs
  {
    if pc + 2 >= cs then pc + 2 - cs else pc + 2
  }

  /** A step: the machine after it, whether the warrior still has a process,
      and the cells written, in order, repeats possible. */
  datatype Stepped = Stepped(m: Machine, alive: bool, written: seq<nat>)

  function Step(cfg: Config, m: Machine, w: nat): (r: Stepped)
    requires Valid(cfg, m) && w < 2
  {
    if m.queues[w] == [] then Stepped(m, false, [])
    else
      var cs := cfg.coreSize;
      var pc := m.queues[w][0];
      var rest: seq<nat> := m.queues[w][1..];
      var ir := m.core[pc];
      var x := Evaluate(cs, m.core, pc, ir, ir.aMode, ir.a);
      var y := Evaluate(cs, x.core, pc, ir, ir.bMode, ir.b);
      var popped := m.(core := y.core, queues := m.queues[w := rest]);
      var room := |rest| + 1 < cfg.maxProcesses;
      var after := Performed(cfg, popped, w, pc, ir, x, y, room);
      var wrote := Execute(cfg, popped, w, pc, ir, x, y, room).wrote;
      Stepped(after, after.queues[w] != [], x.touched + y.touched + if wrote then [y.at] else [])
  }
}
