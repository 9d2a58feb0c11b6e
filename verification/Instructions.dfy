/** What every instruction does, in the numbers of cells, processes and P-space
    alone (src/mars.rs:225-552). Each result is about a whole step, which both
    engines are proved to take. */
module Instructions {
  import Bits
  import opened Redcode
  import opened Configs
  import opened Semantics
  import opened MachineFacts

  // ---- operands ----

  /** What an operand comes to: the core after its side effects, the cells those
      changed, the pointer, the address it leads to and the two numbers there. */
  datatype Found = Found(core: seq<Instruction>, changed: seq<nat>, ptr: nat, at: nat, a: nat, b: nat)

  /** The eight modes. A predecrement comes before the number is read and before
      the cell is, a postincrement after both; an immediate operand is the
      instruction as it was fetched. */
  predicate Finds(cs: nat, core: seq<Instruction>, pc: nat, ir: Instruction, mode: Mode, field: nat, o: Found)
    requires cs >= 1 && |core| == cs
  {
    var p := (pc + field) % cs;
    var c := core[p];
    match mode
    case Immediate => o == Found(core, [], 0, pc, ir.a, ir.b)
    case Direct => o == Found(core, [], field, p, c.a, c.b)
    case AIndirect => Leads(cs, core, core, [], pc, field, c.a, o)
    case BIndirect => Leads(cs, core, core, [], pc, field, c.b, o)
    case APredec =>
      var v := (c.a - 1) % cs;
      Leads(cs, core[p := c.(a := v)], core[p := c.(a := v)], [p], pc, field, v, o)
    case BPredec =>
      var v := (c.b - 1) % cs;
      Leads(cs, core[p := c.(b := v)], core[p := c.(b := v)], [p], pc, field, v, o)
    case APostinc => Leads(cs, core, core[p := c.(a := (c.a + 1) % cs)], [p], pc, field, c.a, o)
    case BPostinc => Leads(cs, core, core[p := c.(b := (c.b + 1) % cs)], [p], pc, field, c.b, o)
  }

  /** By way of the number `v` to a cell of `read`. */
  predicate Leads(cs: nat, read: seq<Instruction>, after: seq<Instruction>, changed: seq<nat>, pc: nat, field: nat,
                  v: nat, o: Found)
    requires cs >= 1 && |read| == cs
  {
    var at := (pc + field + v) % cs;
    o == Found(after, changed, (field + v) % cs, at, read[at].a, read[at].b)
  }

  function FoundBy(o: Operand): Found {
    Found(o.core, o.touched, o.ptr, o.at, o.num.a, o.num.b)
  }

  lemma AddressesAdd(cs: nat, pc: nat, x: nat, y: nat)
    requires pc < cs && x < cs && y < cs
    ensures Plus(cs, x, y) == (x + y) % cs && Plus(cs, pc, Plus(cs, x, y)) == (pc + x + y) % cs
  {
    FoldIsModulo(cs, x, y);
    FoldIsModulo(cs, pc, Plus(cs, x, y));
    Bits.ModUnique(pc + x + y, cs,
        (if x + y >= cs then 1 else 0) + (if pc + Plus(cs, x, y) >= cs then 1 else 0), Plus(cs, pc, Plus(cs, x, y)));
  }

  lemma EvaluateFinds(cs: nat, core: seq<Instruction>, pc: nat, ir: Instruction, mode: Mode, field: nat)
    requires ValidCore(cs, core) && pc < cs && Normalised(cs, ir) && field < cs
    ensures Finds(cs, core, pc, ir, mode, field, FoundBy(Evaluate(cs, core, pc, ir, mode, field)))
  {
    hide Plus, Inc, Dec;
    FoldIsModulo(cs, pc, field);
    var c := core[(pc + field) % cs];
    if mode == Immediate || mode == Direct {
      FoldIsModulo(cs, c.a, 0);
    } else if Via(mode).FA? {
      ThroughA(cs, core, pc, ir, mode, field);
    } else {
      ThroughB(cs, core, pc, ir, mode, field);
    }
  }

  lemma ThroughA(cs: nat, core: seq<Instruction>, pc: nat, ir: Instruction, mode: Mode, field: nat)
    requires ValidCore(cs, core) && pc < cs && Normalised(cs, ir) && field < cs
    requires mode in {AIndirect, APredec, APostinc}
    ensures Finds(cs, core, pc, ir, mode, field, FoundBy(Evaluate(cs, core, pc, ir, mode, field)))
  {
    hide Plus, Inc, Dec;
    FoldIsModulo(cs, pc, field);
    var c := core[(pc + field) % cs];
    FoldIsModulo(cs, c.a, 0);
    AddressesAdd(cs, pc, field, if mode == APredec then Dec(cs, c.a) else c.a);
  }

  lemma ThroughB(cs: nat, core: seq<Instruction>, pc: nat, ir: Instruction, mode: Mode, field: nat)
    requires ValidCore(cs, core) && pc < cs && Normalised(cs, ir) && field < cs
    requires mode in {BIndirect, BPredec, BPostinc}
    ensures Finds(cs, core, pc, ir, mode, field, FoundBy(Evaluate(cs, core, pc, ir, mode, field)))
  {
    hide Plus, Inc, Dec;
    FoldIsModulo(cs, pc, field);
    var c := core[(pc + field) % cs];
    FoldIsModulo(cs, c.b, 0);
    AddressesAdd(cs, pc, field, if mode == BPredec then Dec(cs, c.b) else c.b);
  }

  // ---- a step ----

  predicate Within(cs: nat, o: Found) {
    |o.core| == cs && o.ptr < cs && o.at < cs && o.a < cs && o.b < cs
  }

  /** Warrior `w` has a process to move, whose instruction's operands come to `x`
      and, after it, `y`. */
  predicate Takes(cfg: Config, m: Machine, w: nat, x: Found, y: Found) {
    && Valid(cfg, m) && w < 2 && m.queues[w] != [] && Within(cfg.coreSize, x) && Within(cfg.coreSize, y)
    && var cs, pc := cfg.coreSize, m.queues[w][0];
       var ir := m.core[pc];
       && Finds(cs, m.core, pc, ir, ir.aMode, ir.a, x)
       && Finds(cs, x.core, pc, ir, ir.bMode, ir.b, y)
  }

  /** The process is taken off the queue, `added` queued behind the rest, the
      core is `core`, and `written` are the cells written, in order. */
  predicate Becomes(m: Machine, w: nat, r: Stepped, core: seq<Instruction>, added: seq<nat>, written: seq<nat>)
    requires w < |m.queues| && m.queues[w] != []
  {
    var queue: seq<nat> := m.queues[w][1..] + added;
    r == Stepped(m.(core := core, queues := m.queues[w := queue]), queue != [], written)
  }

  function OperandOf(o: Found): Operand {
    Operand(o.core, o.changed, o.ptr, o.at, Numbers(o.a, o.b))
  }

  /** The machine that executes: the process taken, the operands evaluated. */
  function Ready(m: Machine, w: nat, y: Found): Machine
    requires w < |m.queues| && m.queues[w] != []
  {
    var rest: seq<nat> := m.queues[w][1..];
    m.(core := y.core, queues := m.queues[w := rest])
  }

  /** What an operand comes to is what evaluating it gives. */
  lemma OperandFound(cs: nat, core: seq<Instruction>, pc: nat, ir: Instruction, mode: Mode, field: nat, o: Found)
    requires ValidCore(cs, core) && pc < cs && Normalised(cs, ir) && field < cs
    requires Finds(cs, core, pc, ir, mode, field, o) && Within(cs, o)
    ensures OperandOf(o) == Evaluate(cs, core, pc, ir, mode, field)
    ensures ValidCore(cs, o.core)
  {
    hide Evaluate, ValidCore;
    EvaluateFinds(cs, core, pc, ir, mode, field);
    assert o == FoundBy(Evaluate(cs, core, pc, ir, mode, field));
  }

  lemma TakesOperands(cfg: Config, m: Machine, w: nat, x: Found, y: Found)
    requires Takes(cfg, m, w, x, y)
    ensures var cs, pc := cfg.coreSize, m.queues[w][0];
            var ir := m.core[pc];
            && OperandOf(x) == Evaluate(cs, m.core, pc, ir, ir.aMode, ir.a)
            && ValidCore(cs, x.core) && ValidCore(cs, y.core) && Normalised(cs, ir)
            && OperandOf(y) == Evaluate(cs, x.core, pc, ir, ir.bMode, ir.b)
  {
    hide Evaluate, Finds;
    var cs, pc := cfg.coreSize, m.queues[w][0];
    var ir := m.core[pc];
    OperandFound(cs, m.core, pc, ir, ir.aMode, ir.a, x);
    OperandFound(cs, x.core, pc, ir, ir.bMode, ir.b, y);
  }

  /** What executing an instruction is to be: the machine, the processes queued,
      the target written or not. */
  function Executed(cfg: Config, m: Machine, w: nat, x: Found, y: Found): Effect
    requires Takes(cfg, m, w, x, y)
  {
    TakesOperands(cfg, m, w, x, y);
    PopKeepsValid(cfg, m, w);
    NewCoreKeepsValid(cfg, Ready(m, w, y), y.core);
    Execute(cfg, Ready(m, w, y), w, m.queues[w][0], m.core[m.queues[w][0]], OperandOf(x), OperandOf(y),
        |m.queues[w]| < cfg.maxProcesses)
  }

  lemma StepExecutes(cfg: Config, m: Machine, w: nat, x: Found, y: Found)
    requires Takes(cfg, m, w, x, y)
    ensures var e, r := Executed(cfg, m, w, x, y), Step(cfg, m, w);
            var queue: seq<nat> := m.queues[w][1..] + e.next;
            && |e.m.queues| == 2
            && r.m == e.m.(queues := m.queues[w := queue]) && r.alive == (queue != [])
            && r.written == x.changed + y.changed + if e.wrote then [y.at] else []
  {
    hide Execute, Evaluate;
    TakesOperands(cfg, m, w, x, y);
    PopKeepsValid(cfg, m, w);
    NewCoreKeepsValid(cfg, Ready(m, w, y), y.core);
    ExecuteKeepsValid(cfg, Ready(m, w, y), w, m.queues[w][0], m.core[m.queues[w][0]], OperandOf(x), OperandOf(y),
        |m.queues[w]| < cfg.maxProcesses);
  }

  // ---- instructions that only move the process ----

  /** DAT ends the process; NOP and JMP go on, at the next cell or at the A
      operand's; SPL queues both while there is room. */
  lemma Control(cfg: Config, m: Machine, w: nat, x: Found, y: Found)
    requires Takes(cfg, m, w, x, y)
    ensures var cs, pc, r := cfg.coreSize, m.queues[w][0], Step(cfg, m, w);
            var op, next, jump, changed := m.core[pc].op, (pc + 1) % cs, (pc + x.ptr) % cs, x.changed + y.changed;
            && (op.Dat? ==> Becomes(m, w, r, y.core, [], changed))
            && (op.Nop? ==> Becomes(m, w, r, y.core, [next], changed))
            && (op.Jmp? ==> Becomes(m, w, r, y.core, [jump], changed))
            && (op.Spl? ==>
                  Becomes(m, w, r, y.core, if |m.queues[w]| < cfg.maxProcesses then [next, jump] else [next], changed))
  {
    hide Takes, Finds, Leads, Evaluate, Step, Valid, ValidOperand, Plus, Inc, Dec, Skip, Arith;
    StepExecutes(cfg, m, w, x, y);
    TakesAddresses(cfg, m, w, x, y);
  }

  lemma TakesAddresses(cfg: Config, m: Machine, w: nat, x: Found, y: Found)
    requires Takes(cfg, m, w, x, y)
    ensures w < |m.queues| && m.queues[w] != []
    ensures var cs, pc := cfg.coreSize, m.queues[w][0];
            && pc < |m.core| && Within(cs, x) && Within(cs, y) && cs >= 2
            && Plus(cs, pc, 1) == (pc + 1) % cs && Plus(cs, pc, x.ptr) == (pc + x.ptr) % cs
            && Skip(cs, pc) == (pc + 2) % cs
  {
    hide Finds, Plus, Skip;
    Addresses(cfg.coreSize, m.queues[w][0], x.ptr);
  }

  /** The target's numbers, one less around the core. */
  lemma TakesCell(cfg: Config, m: Machine, w: nat, x: Found, y: Found)
    requires Takes(cfg, m, w, x, y)
    ensures var cs, c := cfg.coreSize, y.core[y.at];
            && c.a < cs && c.b < cs && Dec(cs, c.a) == (c.a - 1) % cs && Dec(cs, c.b) == (c.b - 1) % cs
            && (Dec(cs, y.a) == 0 <==> y.a == 1) && (Dec(cs, y.b) == 0 <==> y.b == 1)
  {
    hide Finds, Evaluate;
    TakesOperands(cfg, m, w, x, y);
    FoldIsModulo(cfg.coreSize, y.core[y.at].a, 0);
    FoldIsModulo(cfg.coreSize, y.core[y.at].b, 0);
  }

  lemma Addresses(cs: nat, pc: nat, ptr: nat)
    requires cs >= 2 && pc < cs && ptr < cs
    ensures Plus(cs, pc, 1) == (pc + 1) % cs && Plus(cs, pc, ptr) == (pc + ptr) % cs && Skip(cs, pc) == (pc + 2) % cs
  {
    FoldIsModulo(cs, pc, 1);
    FoldIsModulo(cs, pc, ptr);
    Bits.ModUnique(pc + 2, cs, if pc + 2 >= cs then 1 else 0, Skip(cs, pc));
  }

  /** JMZ goes to the A operand's cell if the numbers of the B operand it looks
      at are zero, JMN if one of them is not: A looks at the A number, B at the B
      number, and so do AB and BA at their second letter; F, X and I at both. */
  lemma JumpsOnZero(cfg: Config, m: Machine, w: nat, x: Found, y: Found)
    requires Takes(cfg, m, w, x, y)
    ensures var cs, pc, r := cfg.coreSize, m.queues[w][0], Step(cfg, m, w);
            var ir, next, jump, changed := m.core[pc], (pc + 1) % cs, (pc + x.ptr) % cs, x.changed + y.changed;
            var zero := match ir.modifier
              case MA | MBA => y.a == 0
              case MB | MAB => y.b == 0
              case MF | MX | MI => y.a == 0 && y.b == 0;
            && (ir.op.Jmz? ==> Becomes(m, w, r, y.core, [if zero then jump else next], changed))
            && (ir.op.Jmn? ==> Becomes(m, w, r, y.core, [if zero then next else jump], changed))
  {
    hide Takes, Finds, Leads, Evaluate, Step, Valid, ValidOperand, Plus, Inc, Dec, Skip, Arith;
    StepExecutes(cfg, m, w, x, y);
    TakesAddresses(cfg, m, w, x, y);
  }

  /** DJN decrements the numbers of the B operand's cell, and goes to the A
      operand's cell unless all of them were one. */
  lemma DecrementsAndJumps(cfg: Config, m: Machine, w: nat, x: Found, y: Found)
    requires Takes(cfg, m, w, x, y) && m.core[m.queues[w][0]].op.Djn?
    ensures var cs, pc := cfg.coreSize, m.queues[w][0];
            var modifier, c, next, jump := m.core[pc].modifier, y.core[y.at], (pc + 1) % cs, (pc + x.ptr) % cs;
            var (cell, last) := match modifier
              case MA | MBA => (c.(a := (c.a - 1) % cs), y.a == 1)
              case MB | MAB => (c.(b := (c.b - 1) % cs), y.b == 1)
              case MF | MX | MI => (c.(a := (c.a - 1) % cs, b := (c.b - 1) % cs), y.a == 1 && y.b == 1);
            Becomes(m, w, Step(cfg, m, w), y.core[y.at := cell], [if last then next else jump],
                    x.changed + y.changed + [y.at])
  {
    hide Takes, Finds, Leads, Evaluate, Step, Valid, ValidOperand, Plus, Inc, Dec, Skip, Arith;
    StepExecutes(cfg, m, w, x, y);
    TakesAddresses(cfg, m, w, x, y);
    TakesCell(cfg, m, w, x, y);
  }

  // ---- comparisons ----

  /** SLT skips a cell if the A operand's numbers are less than the B operand's. */
  lemma SkipsIfLess(cfg: Config, m: Machine, w: nat, x: Found, y: Found)
    requires Takes(cfg, m, w, x, y) && m.core[m.queues[w][0]].op.Slt?
    ensures var cs, pc := cfg.coreSize, m.queues[w][0];
            var less := match m.core[pc].modifier
              case MA => x.a < y.a
              case MB => x.b < y.b
              case MAB => x.a < y.b
              case MBA => x.b < y.a
              case MF | MI => x.a < y.a && x.b < y.b
              case MX => x.a < y.b && x.b < y.a;
            Becomes(m, w, Step(cfg, m, w), y.core, [if less then (pc + 2) % cs else (pc + 1) % cs],
                    x.changed + y.changed)
  {
    hide Takes, Finds, Leads, Evaluate, Step, Valid, ValidOperand, Plus, Inc, Dec, Skip, Arith;
    StepExecutes(cfg, m, w, x, y);
    TakesAddresses(cfg, m, w, x, y);
  }

  /** CMP and SEQ skip a cell if the numbers are equal, SNE if not; with I the
      whole cells are compared, as they are after both operands. */
  lemma SkipsIfEqual(cfg: Config, m: Machine, w: nat, x: Found, y: Found)
    requires Takes(cfg, m, w, x, y)
    ensures var cs, pc, r := cfg.coreSize, m.queues[w][0], Step(cfg, m, w);
            var ir, next, skip, changed := m.core[pc], (pc + 1) % cs, (pc + 2) % cs, x.changed + y.changed;
            var i, j := y.core[x.at], y.core[y.at];
            var equal := match ir.modifier
              case MA => x.a == y.a
              case MB => x.b == y.b
              case MAB => x.a == y.b
              case MBA => x.b == y.a
              case MF => x.a == y.a && x.b == y.b
              case MX => x.a == y.b && x.b == y.a
              case MI =>
                && x.a == y.a && x.b == y.b
                && i.op == j.op && i.modifier == j.modifier && i.aMode == j.aMode && i.bMode == j.bMode;
            && (ir.op.Cmp? || ir.op.Seq? ==> Becomes(m, w, r, y.core, [if equal then skip else next], changed))
            && (ir.op.Sne? ==> Becomes(m, w, r, y.core, [if equal then next else skip], changed))
  {
    hide Takes, Finds, Leads, Evaluate, Step, Valid, ValidOperand, Plus, Inc, Dec, Skip, Arith;
    StepExecutes(cfg, m, w, x, y);
    TakesAddresses(cfg, m, w, x, y);
  }

  // ---- instructions that write ----

  /** MOV puts the A operand's numbers into the B operand's cell; with I the rest
      of the cell at the A operand too, as it is after both operands. */
  lemma Moves(cfg: Config, m: Machine, w: nat, x: Found, y: Found)
    requires Takes(cfg, m, w, x, y) && m.core[m.queues[w][0]].op.Mov?
    ensures var cs, pc, c := cfg.coreSize, m.queues[w][0], y.core[y.at];
            var cell := match m.core[pc].modifier
              case MA => c.(a := x.a)
              case MB => c.(b := x.b)
              case MAB => c.(b := x.a)
              case MBA => c.(a := x.b)
              case MF => c.(a := x.a, b := x.b)
              case MX => c.(a := x.b, b := x.a)
              case MI => y.core[x.at].(a := x.a, b := x.b);
            Becomes(m, w, Step(cfg, m, w), y.core[y.at := cell], [(pc + 1) % cs], x.changed + y.changed + [y.at])
  {
    hide Takes, Finds, Leads, Evaluate, Step, Valid, ValidOperand, Plus, Inc, Dec, Skip;
    TakesAddresses(cfg, m, w, x, y);
    Writes(cfg, m, w, x, y, Executed(cfg, m, w, x, y).m.core[y.at]);
  }

  /** A step that writes its target and goes on. */
  lemma Writes(cfg: Config, m: Machine, w: nat, x: Found, y: Found, cell: Instruction)
    requires Takes(cfg, m, w, x, y)
    requires Executed(cfg, m, w, x, y)
             == Effect(Write(Ready(m, w, y), y.at, cell), [(m.queues[w][0] + 1) % cfg.coreSize], true)
    ensures Becomes(m, w, Step(cfg, m, w), y.core[y.at := cell], [(m.queues[w][0] + 1) % cfg.coreSize],
                    x.changed + y.changed + [y.at])
  {
    hide Takes, Finds, Evaluate, Step, Valid, Executed;
    TakesAddresses(cfg, m, w, x, y);
    StepExecutes(cfg, m, w, x, y);
  }

  /** Around the core; a quotient or remainder is of a divisor that is not zero. */
  function Figure(op: Opcode, cs: nat, v: nat, n: nat): nat
    requires cs >= 1 && (op.Div? || op.Mod? ==> n != 0)
  {
    if op.Add? then (v + n) % cs
    else if op.Sub? then (v - n) % cs
    else if op.Mul? then v * n % cs
    else if op.Div? then v / n
    else if op.Mod? then v % n
    else n
  }

  /** ADD, SUB and MUL put sums, differences and products around the core into
      the B operand's cell: of its numbers, first, and the A operand's. */
  lemma Calculates(cfg: Config, m: Machine, w: nat, x: Found, y: Found)
    requires Takes(cfg, m, w, x, y) && m.core[m.queues[w][0]].op in {Add, Sub, Mul}
    ensures var cs, pc, c := cfg.coreSize, m.queues[w][0], y.core[y.at];
            var op := m.core[pc].op;
            var cell := match m.core[pc].modifier
              case MA => c.(a := Figure(op, cs, y.a, x.a))
              case MB => c.(b := Figure(op, cs, y.b, x.b))
              case MAB => c.(b := Figure(op, cs, y.b, x.a))
              case MBA => c.(a := Figure(op, cs, y.a, x.b))
              case MF | MI => c.(a := Figure(op, cs, y.a, x.a), b := Figure(op, cs, y.b, x.b))
              case MX => c.(a := Figure(op, cs, y.a, x.b), b := Figure(op, cs, y.b, x.a));
            Becomes(m, w, Step(cfg, m, w), y.core[y.at := cell], [(pc + 1) % cs], x.changed + y.changed + [y.at])
  {
    hide Takes, Finds, Leads, Evaluate, Step, Valid, ValidOperand, Plus, Inc, Dec, Skip, Arith;
    StepExecutes(cfg, m, w, x, y);
    TakesAddresses(cfg, m, w, x, y);
    ArithFigures(cfg.coreSize, m.core[m.queues[w][0]].op);
  }

  lemma ArithFigures(cs: nat, op: Opcode)
    requires cs >= 1 && op in {Add, Sub, Mul}
    ensures forall v: nat, n: nat :: v < cs && n < cs ==> Arith(op, cs, v, n) == Figure(op, cs, v, n)
  {
    forall v: nat, n: nat | v < cs && n < cs
      ensures Arith(op, cs, v, n) == Figure(op, cs, v, n)
    {
      FoldIsModulo(cs, v, n);
    }
  }

  /** What divides the A number, if it is divided, and what divides the B number. */
  function Divisors(modifier: Modifier, x: Found): (Option<nat>, Option<nat>) {
    match modifier
    case MA => (Some(x.a), None)
    case MB => (None, Some(x.b))
    case MAB => (None, Some(x.a))
    case MBA => (Some(x.b), None)
    case MF | MI => (Some(x.a), Some(x.b))
    case MX => (Some(x.b), Some(x.a))
  }

  /** DIV and MOD put quotients and remainders there. A number divided by zero
      stays and ends the process; the other one is divided all the same. */
  lemma Divides(cfg: Config, m: Machine, w: nat, x: Found, y: Found)
    requires Takes(cfg, m, w, x, y) && m.core[m.queues[w][0]].op in {Div, Mod}
    ensures var cs, pc, c := cfg.coreSize, m.queues[w][0], y.core[y.at];
            var op := m.core[pc].op;
            var (a, b) := Divisors(m.core[pc].modifier, x);
            var cell := c.(a := if a.Some? && a.value != 0 then Figure(op, cs, y.a, a.value) else c.a,
                           b := if b.Some? && b.value != 0 then Figure(op, cs, y.b, b.value) else c.b);
            Becomes(m, w, Step(cfg, m, w), y.core[y.at := cell],
                    if a == Some(0) || b == Some(0) then [] else [(pc + 1) % cs],
                    x.changed + y.changed
                    + if (a.Some? && a.value != 0) || (b.Some? && b.value != 0) then [y.at] else [])
  {
    hide Takes, Finds, Leads, Evaluate, Step, Valid, ValidOperand, Plus, Inc, Dec, Skip, Arith;
    StepExecutes(cfg, m, w, x, y);
    TakesAddresses(cfg, m, w, x, y);
  }

  // ---- P-space ----

  /** LDP reads the P-space cell the A operand's number names, around the
      P-space: cell 0 is the warrior's own result, the others are its bank's. */
  lemma Reads(cfg: Config, m: Machine, w: nat, x: Found, y: Found)
    requires Takes(cfg, m, w, x, y) && m.core[m.queues[w][0]].op.Ldp?
    ensures var cs, pc, c := cfg.coreSize, m.queues[w][0], y.core[y.at];
            var modifier := m.core[pc].modifier;
            var i := (if modifier in {MA, MAB} then x.a else x.b) % cfg.PspaceSize();
            var v := if i == 0 then m.last[w] else m.pspace[m.bank[w]][i];
            var cell := if modifier in {MA, MBA} then c.(a := v) else c.(b := v);
            Becomes(m, w, Step(cfg, m, w), y.core[y.at := cell], [(pc + 1) % cs], x.changed + y.changed + [y.at])
  {
    hide Takes, Finds, Leads, Evaluate, Step, Valid, ValidOperand, Plus, Inc, Dec, Skip, Arith;
    StepExecutes(cfg, m, w, x, y);
    TakesAddresses(cfg, m, w, x, y);
  }

  /** STP writes the A operand's number into the P-space cell the B operand's
      names; no cell of the core is written. */
  lemma Stores(cfg: Config, m: Machine, w: nat, x: Found, y: Found)
    requires Takes(cfg, m, w, x, y) && m.core[m.queues[w][0]].op.Stp?
    ensures var cs, pc := cfg.coreSize, m.queues[w][0];
            var modifier, bank := m.core[pc].modifier, m.bank[w];
            var i := (if modifier in {MA, MBA} then y.a else y.b) % cfg.PspaceSize();
            var v := if modifier in {MA, MAB} then x.a else x.b;
            var cells: seq<nat> := if i == 0 then [] else m.pspace[bank][i := v];
            var stored := if i == 0 then m.(last := m.last[w := v]) else m.(pspace := m.pspace[bank := cells]);
            Becomes(stored, w, Step(cfg, m, w), y.core, [(pc + 1) % cs], x.changed + y.changed)
  {
    hide Takes, Finds, Leads, Evaluate, Step, Valid, ValidOperand, Plus, Inc, Dec, Skip, Arith;
    StepExecutes(cfg, m, w, x, y);
    TakesAddresses(cfg, m, w, x, y);
  }

  lemma OneOperand(cs: nat, core: seq<Instruction>, pc: nat, ir: Instruction, mode: Mode, field: nat, o: Found)
    requires ValidCore(cs, core) && pc < cs && Normalised(cs, ir) && field < cs
    ensures var e := FoundBy(Evaluate(cs, core, pc, ir, mode, field));
            Finds(cs, core, pc, ir, mode, field, o) <==> o == e
    ensures Within(cs, FoundBy(Evaluate(cs, core, pc, ir, mode, field)))
  {
    hide Evaluate;
    EvaluateFinds(cs, core, pc, ir, mode, field);
  }

  /** Every warrior with a process takes a step of one of these kinds, its
      operands found in exactly one way; without one it is out. */
  lemma EveryStep(cfg: Config, m: Machine, w: nat)
    requires Valid(cfg, m) && w < 2
    ensures m.queues[w] == [] ==> Step(cfg, m, w) == Stepped(m, false, [])
    ensures m.queues[w] != [] ==>
              exists x, y :: Takes(cfg, m, w, x, y) && forall x', y' :: Takes(cfg, m, w, x', y') ==> (x, y) == (x', y')
  {
    hide Takes, Evaluate;
    if m.queues[w] != [] {
      var x, y := Operands(cfg, m, w);
      forall x', y' | Takes(cfg, m, w, x', y')
        ensures (x, y) == (x', y')
      {
        TakesOperands(cfg, m, w, x, y);
        TakesOperands(cfg, m, w, x', y');
      }
    }
  }

  lemma Operands(cfg: Config, m: Machine, w: nat) returns (x: Found, y: Found)
    requires Valid(cfg, m) && w < 2 && m.queues[w] != []
    ensures Takes(cfg, m, w, x, y)
  {
    hide Evaluate, Finds, FoundBy;
    var cs, pc := cfg.coreSize, m.queues[w][0];
    var ir := m.core[pc];
    var e := Evaluate(cs, m.core, pc, ir, ir.aMode, ir.a);
    x := FoundBy(e);
    y := FoundBy(Evaluate(cs, e.core, pc, ir, ir.bMode, ir.b));
    OneOperand(cs, m.core, pc, ir, ir.aMode, ir.a, x);
    OneOperand(cs, e.core, pc, ir, ir.bMode, ir.b, y);
    CoreFound(e);
  }

  lemma CoreFound(o: Operand)
    ensures FoundBy(o).core == o.core
  {
  }
}
