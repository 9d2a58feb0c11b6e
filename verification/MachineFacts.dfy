/** What every instruction keeps: ranges, queue bounds, and the cells and
    queues it may touch. */
module MachineFacts {
  import Bits
  import opened Redcode
  import opened Configs
  import opened Semantics

  /** Folding an address with one subtraction is the remainder. */
  lemma FoldIsModulo(cs: nat, x: nat, y: nat)
    requires x < cs && y < cs
    ensures Plus(cs, x, y) == (x + y) % cs
    ensures Arith(Sub, cs, x, y) == (x - y) % cs
    ensures Inc(cs, x) == (x + 1) % cs && Dec(cs, x) == (x - 1) % cs
  {
    Bits.ModUnique(x + y, cs, if x + y >= cs then 1 else 0, Plus(cs, x, y));
    Bits.ModUnique(x - y, cs, if x >= y then 0 else -1, Arith(Sub, cs, x, y));
    Bits.ModUnique(x + 1, cs, if x + 1 == cs then 1 else 0, Inc(cs, x));
    Bits.ModUnique(x - 1, cs, if x == 0 then -1 else 0, Dec(cs, x));
  }

  /** The cell an instruction writes is well-formed, so is its P-space. */
  lemma ExecuteKeepsValid(cfg: Config, m: Machine, w: nat, pc: nat, ir: Instruction, x: Operand, y: Operand, room: bool)
    requires Valid(cfg, m) && w < 2 && pc < cfg.coreSize
    requires ValidOperand(cfg.coreSize, x) && ValidOperand(cfg.coreSize, y)
    ensures var e := Execute(cfg, m, w, pc, ir, x, y, room);
            && Valid(cfg, e.m) && e.m.queues == m.queues && e.m.bank == m.bank
            && |e.m.pspace| == |m.pspace|
            && (forall i :: 0 <= i < cfg.coreSize && (i != y.at || !e.wrote) ==> e.m.core[i] == m.core[i])
  {
    hide Combine, Decrement, SetPspace, ValidPspace;
    var cs := cfg.coreSize;
    var c := m.core[y.at];
    var lanes := Select(ir.modifier);
    assert Normalised(cs, c);
    match ir.op
    case Mov =>
      var base := if ir.modifier.MI? then m.core[x.at] else c;
      assert Normalised(cs, base);
      WriteKeepsValid(cfg, m, y.at, Combine(Mov, cs, lanes, base, x.num, y.num));
    case Add | Sub | Mul => WriteKeepsValid(cfg, m, y.at, Combine(ir.op, cs, lanes, c, x.num, y.num));
    case Div | Mod =>
      DivideInRange(ir.op, cs, lanes, c, x.num, y.num);
      WriteKeepsValid(cfg, m, y.at, Divide(ir.op, lanes, c, x.num, y.num).cell);
    case Djn => WriteKeepsValid(cfg, m, y.at, Decrement(cs, lanes, c));
    case Ldp =>
      var one := SelectOne(ir.modifier);
      WriteKeepsValid(cfg, m, y.at, Put(c, one.dst, GetPspace(cfg, m, w, Num(x.num, one.src))));
    case _ =>
  }

  /** At most two processes are queued, two only when there is room. */
  lemma ExecuteQueues(cfg: Config, m: Machine, w: nat, pc: nat, ir: Instruction, x: Operand, y: Operand, room: bool)
    requires Valid(cfg, m) && w < 2 && pc < cfg.coreSize
    requires ValidOperand(cfg.coreSize, x) && ValidOperand(cfg.coreSize, y)
    ensures var e := Execute(cfg, m, w, pc, ir, x, y, room);
            |e.next| <= 2 && AllBelow(cfg.coreSize, e.next) && (|e.next| == 2 ==> room)
  {
  }

  lemma WriteKeepsValid(cfg: Config, m: Machine, t: nat, c: Instruction)
    requires Valid(cfg, m) && t < cfg.coreSize && Normalised(cfg.coreSize, c)
    ensures Valid(cfg, Write(m, t, c))
  {
  }

  lemma DivideInRange(op: Opcode, cs: nat, lanes: Lanes, c: Instruction, x: Numbers, y: Numbers)
    requires Small(cs, x) && Small(cs, y) && Normalised(cs, c)
    ensures var d := Divide(op, lanes, c, x, y);
            Normalised(cs, d.cell) && (d.whole ==> d.wrote) && (!d.wrote ==> d.cell == c)
  {
  }

  lemma NewCoreKeepsValid(cfg: Config, m: Machine, core: seq<Instruction>)
    requires Valid(cfg, m) && ValidCore(cfg.coreSize, core)
    ensures Valid(cfg, m.(core := core))
  {
  }

  lemma PopKeepsValid(cfg: Config, m: Machine, w: nat)
    requires Valid(cfg, m) && w < 2 && m.queues[w] != []
    ensures var rest: seq<nat> := m.queues[w][1..];
            Valid(cfg, m.(queues := m.queues[w := rest])) && m.queues[w][0] < cfg.coreSize
  {
  }

  lemma EvaluateFrame(cs: nat, core: seq<Instruction>, pc: nat, ir: Instruction, mode: Mode, field: nat)
    requires ValidCore(cs, core) && pc < cs && Normalised(cs, ir) && field < cs
    ensures var o := Evaluate(cs, core, pc, ir, mode, field);
            && |o.core| == cs
            && (forall i :: 0 <= i < cs && i !in o.touched ==> o.core[i] == core[i])
            && (forall i :: 0 <= i < cs ==> SameKind(o.core[i], core[i]))
  {
  }

  /** Every instruction leaves a well-formed machine: numbers, program counters
      and P-space values stay below the core size, and no warrior passes the
      process limit. The other warrior's queue does not move. */
  lemma StepKeepsValid(cfg: Config, m: Machine, w: nat)
    requires Valid(cfg, m) && w < 2
    ensures var r := Step(cfg, m, w);
            && Valid(cfg, r.m) && r.alive == (r.m.queues[w] != [])
            && r.m.queues[1 - w] == m.queues[1 - w] && r.m.bank == m.bank
            && |r.m.pspace| == |m.pspace|
  {
    hide Execute, Evaluate;
    if m.queues[w] != [] {
      var cs := cfg.coreSize;
      var pc := m.queues[w][0];
      var rest: seq<nat> := m.queues[w][1..];
      var ir := m.core[pc];
      var x := Evaluate(cs, m.core, pc, ir, ir.aMode, ir.a);
      var y := Evaluate(cs, x.core, pc, ir, ir.bMode, ir.b);
      var popped := m.(core := y.core, queues := m.queues[w := rest]);
      ExecuteKeepsValid(cfg, popped, w, pc, ir, x, y, |rest| + 1 < cfg.maxProcesses);
      ExecuteQueues(cfg, popped, w, pc, ir, x, y, |rest| + 1 < cfg.maxProcesses);
    }
  }

  /** An instruction changes only the cells it reports, at most three. */
  lemma StepFrame(cfg: Config, m: Machine, w: nat)
    requires Valid(cfg, m) && w < 2
    ensures var r := Step(cfg, m, w);
            && |r.m.core| == |m.core| && AllBelow(cfg.coreSize, r.written) && |r.written| <= 3
            && (forall i :: 0 <= i < cfg.coreSize && i !in r.written ==> r.m.core[i] == m.core[i])
  {
    hide Execute, Evaluate;
    if m.queues[w] != [] {
      var cs := cfg.coreSize;
      var pc := m.queues[w][0];
      var rest: seq<nat> := m.queues[w][1..];
      var ir := m.core[pc];
      var x := Evaluate(cs, m.core, pc, ir, ir.aMode, ir.a);
      var y := Evaluate(cs, x.core, pc, ir, ir.bMode, ir.b);
      var popped := m.(core := y.core, queues := m.queues[w := rest]);
      EvaluateFrame(cs, m.core, pc, ir, ir.aMode, ir.a);
      EvaluateFrame(cs, x.core, pc, ir, ir.bMode, ir.b);
      ExecuteKeepsValid(cfg, popped, w, pc, ir, x, y, |rest| + 1 < cfg.maxProcesses);
      var e := Execute(cfg, popped, w, pc, ir, x, y, |rest| + 1 < cfg.maxProcesses);
      var written := Step(cfg, m, w).written;
      assert written == x.touched + y.touched + if e.wrote then [y.at] else [];
    }
  }

  /** A step takes the head of the warrior's queue and appends at most two
      processes behind the rest. */
  lemma StepQueue(cfg: Config, m: Machine, w: nat)
    requires Valid(cfg, m) && w < 2 && m.queues[w] != []
    ensures var q, q' := m.queues[w], Step(cfg, m, w).m.queues[w];
            && |q| - 1 <= |q'| <= |q| + 1
            && q'[..|q| - 1] == q[1..]
  {
    hide Execute, Evaluate;
    var cs := cfg.coreSize;
    var pc := m.queues[w][0];
    var rest: seq<nat> := m.queues[w][1..];
    var ir := m.core[pc];
    var x := Evaluate(cs, m.core, pc, ir, ir.aMode, ir.a);
    var y := Evaluate(cs, x.core, pc, ir, ir.bMode, ir.b);
    var popped := m.(core := y.core, queues := m.queues[w := rest]);
    ExecuteKeepsValid(cfg, popped, w, pc, ir, x, y, |rest| + 1 < cfg.maxProcesses);
    ExecuteQueues(cfg, popped, w, pc, ir, x, y, |rest| + 1 < cfg.maxProcesses);
  }
}
