/** The plain engine (src/mars.rs): a core updated in place, queues, P-space.
    Every method is proved against `Semantics` and `Match`. */
module MarsEngine {
  import Bits
  import Rng
  import opened Redcode
  import opened Configs
  import opened Semantics
  import opened MachineFacts
  import opened Match
  import S = Scores

  class Mars {
    const cfg: Config
    const cs: nat
    const maxProcesses: nat
    const pspaceSize: nat
    const core: array<Instruction>
    var queues: seq<seq<nat>>
    var pspace: seq<seq<nat>>
    var bank: seq<nat>
    var lastResult: seq<nat>
    /** Instructions executed since creation, and in the last round. */
    var steps: nat
    var lastRoundSteps: nat

    ghost predicate Fits()
      reads core
    {
      && cfg.coreSize >= 2
      && cs == cfg.coreSize && maxProcesses == cfg.maxProcesses && pspaceSize == cfg.PspaceSize()
      && core.Length == cs
    }

    ghost function Abs(): Machine
      reads this, core
    {
      Machine(core[..], queues, pspace, bank, lastResult)
    }

    ghost predicate Ready()
      reads this, core
    {
      Fits() && Valid(cfg, Abs()) && |queues| == 2
    }

    constructor (cfg: Config)
      requires cfg.Playable()
      ensures this.cfg == cfg && Fits() && fresh(core) && steps == 0 && core[..] == EmptyCore(cfg.coreSize)
      ensures queues == [[], []]
    {
      this.cfg := cfg;
      cs := cfg.coreSize;
      maxProcesses := cfg.maxProcesses;
      pspaceSize := cfg.PspaceSize();
      core := new Instruction[cfg.coreSize](_ => EMPTY);
      queues := [[], []];
      pspace := [seq(cfg.PspaceSize(), _ => 0), seq(cfg.PspaceSize(), _ => 0)];
      bank := [0, 1];
      lastResult := [cfg.coreSize - 1, cfg.coreSize - 1];
      steps := 0;
      lastRoundSteps := 0;
      new;
      assert core[..] == EmptyCore(cs);
    }

    /** Banks are numbered as warriors first need them; a PIN shares one. */
    method BeginMatch(a: Warrior, b: Warrior)
      requires Fits()
      modifies this
      ensures Fits() && Abs() == Match.BeginMatch(cfg, old(Abs()), a, b)
      ensures steps == old(steps)
    {
      var pins := [a.pin, b.pin];
      var next := 0;
      var banks: seq<Option<nat>> := [None, None];
      ghost var shared := a.pin.Some? && a.pin == b.pin;
      for i := 0 to 2
        invariant |banks| == 2
        invariant i == 0 ==> next == 0 && banks == [None, None]
        invariant i >= 1 ==> banks[0] == Some(0)
        invariant i == 1 ==> next == 1 && banks[1] == if shared then Some(0) else None
        invariant i == 2 ==> next == (if shared then 1 else 2) && banks[1] == Some(next - 1)
      {
        if banks[i].None? {
          banks := banks[i := Some(next)];
          if pins[i].Some? {
            for j := i + 1 to 2
              invariant |banks| == 2 && banks[i] == Some(next) && banks[0] == Some(0)
              invariant i == 0 ==> banks[1] == if j == 2 && shared then Some(0) else None
            {
              if pins[j] == pins[i] {
                banks := banks[j := Some(next)];
              }
            }
          }
          next := next + 1;
        }
      }
      bank := [banks[0].value, banks[1].value];
      pspace := seq(next, _ => seq(pspaceSize, _ => 0));
      lastResult := [cs - 1, cs - 1];
      assert pspace == Match.BeginMatch(cfg, old(Abs()), a, b).pspace;
    }

    method GetPspace(w: nat, idx: nat) returns (v: nat)
      requires Ready() && w < 2
      ensures v == Semantics.GetPspace(cfg, Abs(), w, idx)
    {
      var i := idx % pspaceSize;
      if i == 0 {
        v := lastResult[w];
      } else {
        v := pspace[bank[w]][i];
      }
    }

    method SetPspace(w: nat, idx: nat, v: nat)
      requires Ready() && w < 2 && v < cs
      modifies this`pspace, this`lastResult
      ensures Abs() == Semantics.SetPspace(cfg, old(Abs()), w, idx, v)
    {
      var i := idx % pspaceSize;
      if i == 0 {
        lastResult := lastResult[w := v];
      } else {
        var b := bank[w];
        var cells: seq<nat> := pspace[b][i := v];
        pspace := pspace[b := cells];
      }
    }

    function Fold(x: nat, y: nat): (r: nat)
      requires x < cs && y < cs
      ensures r == Plus(cs, x, y)
    {
      var s := x + y;
      if s >= cs then s - cs else s
    }

    function Down(x: nat): (r: nat)
      requires x < cs
      ensures r == Dec(cs, x)
    {
      if x == 0 then cs - 1 else x - 1
    }

    /** Clear the core and load both warriors. */
    method Load(a: Warrior, b: Warrior, posA: nat, posB: nat)
      requires Fits() && maxProcesses >= 1 && ValidPspace(cfg, Abs())
      requires NormalisedWarrior(cs, a) && NormalisedWarrior(cs, b) && posA < cs && posB < cs
      modifies this`queues, core
      ensures Fits() && Abs() == Match.Load(cfg, old(Abs()), a, b, posA, posB)
    {
      forall i | 0 <= i < core.Length {
        core[i] := EMPTY;
      }
      assert core[..] == EmptyCore(cs);
      Place(a.code, posA);
      Place(b.code, posB);
      queues := [[Fold(posA, a.start)], [Fold(posB, b.start)]];
    }

    method Place(code: seq<Instruction>, pos: nat)
      requires Fits() && ValidCore(cs, core[..]) && NormalisedCode(cs, code) && pos < cs
      modifies core
      ensures core[..] == LoadCode(cs, old(core[..]), pos, code, |code|)
    {
      var k := 0;
      while k < |code|
        invariant 0 <= k <= |code|
        invariant core[..] == LoadCode(cs, old(core[..]), pos, code, k)
      {
        var at := Fold(pos, k % cs);
        core[at] := code[k];
        k := k + 1;
      }
    }

    method SetA(p: nat, v: nat)
      requires p < core.Length
      modifies core
      ensures core[..] == Touch(old(core[..]), p, FA, v)
    {
      core[p] := core[p].(a := v);
    }

    method SetB(p: nat, v: nat)
      requires p < core.Length
      modifies core
      ensures core[..] == Touch(old(core[..]), p, FB, v)
    {
      core[p] := core[p].(b := v);
    }

    /** An indirect operand's predecrement, and the pointer behind it; `post` is
        the number still to increment. */
    method Indirect(p: nat, mode: Mode, field: nat) returns (ptr: nat, post: Option<(nat, bool)>, notes: seq<nat>)
      requires Fits() && ValidCore(cs, core[..]) && p < cs && field < cs && !mode.Immediate? && !mode.Direct?
      modifies core
      ensures core[..] == Predecrement(cs, old(core[..]), p, mode)
      ensures ptr == Plus(cs, field, Get(core[p], Via(mode)))
      ensures post == if mode.APostinc? || mode.BPostinc? then Some((p, mode.APostinc?)) else None
      ensures notes == if mode.APredec? || mode.BPredec? then [p] else []
    {
      notes, post := [], None;
      if mode == APredec {
        core[p] := core[p].(a := Down(core[p].a));
        notes := notes + [p];
      } else if mode == BPredec {
        core[p] := core[p].(b := Down(core[p].b));
        notes := notes + [p];
      }
      var viaA := mode == AIndirect || mode == APredec || mode == APostinc;
      ptr := Fold(field, if viaA then core[p].a else core[p].b);
      if mode == APostinc {
        post := Some((p, true));
      } else if mode == BPostinc {
        post := Some((p, false));
      }
    }

    /** Evaluate one operand: pointer, address, the cell read there. */
    method Operand(pc: nat, ir: Instruction, mode: Mode, field: nat)
      returns (ptr: nat, at: nat, cell: Instruction, notes: seq<nat>)
      requires Fits() && ValidCore(cs, core[..]) && pc < cs && Normalised(cs, ir) && field < cs
      modifies core
      ensures var o := Evaluate(cs, old(core[..]), pc, ir, mode, field);
              core[..] == o.core && ptr == o.ptr && at == o.at && NumbersOf(cell) == o.num && notes == o.touched
    {
      hide Predecrement;
      if mode == Immediate {
        return 0, pc, ir, [];
      }
      ptr := field;
      notes := [];
      var post: Option<(nat, bool)> := None;
      if mode != Direct {
        ptr, post, notes := Indirect(Fold(pc, field), mode, field);
      }
      at := Fold(pc, ptr);
      cell := core[at];
      if post.Some? {
        var p := post.value.0;
        if post.value.1 {
          core[p] := core[p].(a := Fold(core[p].a, 1));
        } else {
          core[p] := core[p].(b := Fold(core[p].b, 1));
        }
        notes := notes + [p];
      }
    }

    // ---- the arms of the big match, those that write the core ----

    method Mov(t: nat, m: Modifier, aAt: nat, air: Instruction, ghost y: Numbers)
      requires Fits() && ValidCore(cs, core[..]) && t < cs && aAt < cs && Normalised(cs, air) && Small(cs, y)
      modifies core
      ensures var base := old(core[if m.MI? then aAt else t]);
              core[..] == old(core[..])[t := Combine(Opcode.Mov, cs, Select(m), base, NumbersOf(air), y)]
    {
      var c := core[t];
      match m
      case MA => core[t] := c.(a := air.a);
      case MB => core[t] := c.(b := air.b);
      case MAB => core[t] := c.(b := air.a);
      case MBA => core[t] := c.(a := air.b);
      case MF => core[t] := c.(a := air.a, b := air.b);
      case MX => core[t] := c.(a := air.b, b := air.a);
      case MI =>
        var src := core[aAt];
        core[t] := src.(a := air.a, b := air.b);
    }

    function Calc(op: Opcode, x: nat, y: nat): (r: nat)
      requires op.Add? || op.Sub? || op.Mul?
      requires x < cs && y < cs
      ensures r == Arith(op, cs, x, y)
    {
      FoldIsModulo(cs, x, y);
      if op.Add? then (x + y) % cs
      else if op.Sub? then
        Bits.ModUnique(x + cs - y, cs, if x >= y then 1 else 0, Arith(op, cs, x, y));
        (x + cs - y) % cs
      else (x * y) % cs
    }

    method Arithmetic(op: Opcode, t: nat, m: Modifier, air: Instruction, bir: Instruction)
      requires op.Add? || op.Sub? || op.Mul?
      requires Fits() && ValidCore(cs, core[..]) && t < cs && Normalised(cs, air) && Normalised(cs, bir)
      modifies core
      ensures core[..] == old(core[..])[t := Combine(op, cs, Select(m), old(core[t]), NumbersOf(air), NumbersOf(bir))]
    {
      var c := core[t];
      match m
      case MA => core[t] := c.(a := Calc(op, bir.a, air.a));
      case MB => core[t] := c.(b := Calc(op, bir.b, air.b));
      case MAB => core[t] := c.(b := Calc(op, bir.b, air.a));
      case MBA => core[t] := c.(a := Calc(op, bir.a, air.b));
      case MF | MI => core[t] := c.(a := Calc(op, bir.a, air.a), b := Calc(op, bir.b, air.b));
      case MX => core[t] := c.(a := Calc(op, bir.a, air.b), b := Calc(op, bir.b, air.a));
    }

    /** `x` over (or modulo) `y` into a field of cell t; false, and the field
        left alone, when `y` is zero. */
    method DivideField(op: Opcode, t: nat, f: Field, x: nat, y: nat) returns (done: bool)
      requires Fits() && t < cs
      modifies core
      ensures done == (y != 0)
      ensures core[..] == if y == 0 then old(core[..])
                          else old(core[..])[t := Put(old(core[t]), f, Quotient(op, x, y))]
    {
      if y == 0 {
        return false;
      }
      var v := if op == Opcode.Div then x / y else x % y;
      QuotientBound(x, y);
      if f.FA? {
        core[t] := core[t].(a := v);
      } else {
        core[t] := core[t].(b := v);
      }
      return true;
    }

    method Division(op: Opcode, t: nat, m: Modifier, air: Instruction, bir: Instruction)
      returns (wrote: bool, alive: bool)
      requires op.Div? || op.Mod?
      requires Fits() && t < cs
      modifies core
      ensures var d := Divide(op, Select(m), old(core[t]), NumbersOf(air), NumbersOf(bir));
              core[..] == old(core[..])[t := d.cell] && wrote == d.wrote && alive == d.whole
    {
      match m
      case MA =>
        wrote := DivideField(op, t, FA, bir.a, air.a);
        alive := wrote;
      case MB =>
        wrote := DivideField(op, t, FB, bir.b, air.b);
        alive := wrote;
      case MAB =>
        wrote := DivideField(op, t, FB, bir.b, air.a);
        alive := wrote;
      case MBA =>
        wrote := DivideField(op, t, FA, bir.a, air.b);
        alive := wrote;
      case MF | MI =>
        var x := DivideField(op, t, FA, bir.a, air.a);
        var y := DivideField(op, t, FB, bir.b, air.b);
        wrote, alive := x || y, x && y;
      case MX =>
        var x := DivideField(op, t, FA, bir.a, air.b);
        var y := DivideField(op, t, FB, bir.b, air.a);
        wrote, alive := x || y, x && y;
    }

    /** Decrement at the target and in the snapshot; true when the snapshot is
        not zero. */
    method Djn(t: nat, m: Modifier, bir: Instruction) returns (nz: bool)
      requires Fits() && ValidCore(cs, core[..]) && t < cs && Normalised(cs, bir)
      modifies core
      ensures core[..] == old(core[..])[t := Decrement(cs, Select(m), old(core[t]))]
      ensures nz == !AllZero(Select(m), Numbers(Dec(cs, bir.a), Dec(cs, bir.b)))
    {
      var c := core[t];
      match m
      case MA | MBA =>
        core[t] := c.(a := Down(c.a));
        nz := Down(bir.a) != 0;
      case MB | MAB =>
        core[t] := c.(b := Down(c.b));
        nz := Down(bir.b) != 0;
      case MF | MX | MI =>
        core[t] := c.(a := Down(c.a), b := Down(c.b));
        nz := Down(bir.a) != 0 || Down(bir.b) != 0;
    }

    method Ldp(w: nat, t: nat, m: Modifier, air: Instruction)
      requires Ready() && w < 2 && t < cs
      modifies core
      ensures var one := SelectOne(m);
              core[..] == old(core[..])[t := Put(old(core[t]), one.dst,
                  Semantics.GetPspace(cfg, old(Abs()), w, Num(NumbersOf(air), one.src)))]
    {
      var v := GetPspace(w, if m == MA || m == MAB then air.a else air.b);
      if m == MA || m == MBA {
        core[t] := core[t].(a := v);
      } else {
        core[t] := core[t].(b := v);
      }
    }

    method Stp(w: nat, m: Modifier, air: Instruction, bir: Instruction)
      requires Ready() && w < 2 && Normalised(cs, air)
      modifies this`pspace, this`lastResult
      ensures var one := SelectOne(m);
              Abs() == Semantics.SetPspace(cfg, old(Abs()), w, Num(NumbersOf(bir), one.dst),
                  Num(NumbersOf(air), one.src))
    {
      match m
      case MA => SetPspace(w, bir.a, air.a);
      case MAB => SetPspace(w, bir.b, air.a);
      case MBA => SetPspace(w, bir.a, air.b);
      case MB | MF | MX | MI => SetPspace(w, bir.b, air.b);
    }

    // ---- the arms that only compare ----

    predicate IsZero(m: Modifier, bir: Instruction)
      ensures IsZero(m, bir) == AllZero(Select(m), NumbersOf(bir))
    {
      match m
      case MA | MBA => bir.a == 0
      case MB | MAB => bir.b == 0
      case MF | MX | MI => bir.a == 0 && bir.b == 0
    }

    predicate IsLess(m: Modifier, air: Instruction, bir: Instruction)
      ensures IsLess(m, air, bir) == Less(Select(m), NumbersOf(air), NumbersOf(bir))
    {
      match m
      case MA => air.a < bir.a
      case MB => air.b < bir.b
      case MAB => air.a < bir.b
      case MBA => air.b < bir.a
      case MF | MI => air.a < bir.a && air.b < bir.b
      case MX => air.a < bir.b && air.b < bir.a
    }

    predicate IsEqual(m: Modifier, aAt: nat, t: nat, air: Instruction, bir: Instruction)
      requires aAt < core.Length && t < core.Length
      reads core
      ensures IsEqual(m, aAt, t, air, bir) ==
              (NumbersEqual(Select(m), NumbersOf(air), NumbersOf(bir)) && (m.MI? ==> SameKind(core[aAt], core[t])))
    {
      match m
      case MA => air.a == bir.a
      case MB => air.b == bir.b
      case MAB => air.a == bir.b
      case MBA => air.b == bir.a
      case MF => air.a == bir.a && air.b == bir.b
      case MX => air.a == bir.b && air.b == bir.a
      case MI =>
        var x, y := core[aAt], core[t];
        && x.op == y.op && x.modifier == y.modifier && x.aMode == y.aMode && x.bMode == y.bMode
        && air.a == bir.a && air.b == bir.b
    }

    method Queue(w: nat, at: nat)
      requires w < 2 && |queues| == 2
      modifies this`queues
      ensures queues == old(queues)[w := old(queues[w]) + [at]]
    {
      queues := queues[w := queues[w] + [at]];
    }

    /** Execute the fetched instruction; `x` and `y` are its operands as the
        specification evaluates them. Returns whether cell t was written. */
    method Execute(w: nat, pc: nat, ir: Instruction, rpa: nat, aAt: nat, air: Instruction, t: nat, bir: Instruction,
                   ghost x: Operand, ghost y: Operand) returns (wrote: bool)
      requires Ready() && w < 2 && pc < cs && |queues[w]| < maxProcesses
      requires ValidOperand(cs, x) && ValidOperand(cs, y)
      requires rpa == x.ptr && aAt == x.at && NumbersOf(air) == x.num
      requires t == y.at && NumbersOf(bir) == y.num
      modifies this`queues, this`pspace, this`lastResult, core
      ensures Fits()
      ensures var room := |old(queues)[w]| + 1 < maxProcesses;
              && Abs() == Performed(cfg, old(Abs()), w, pc, ir, x, y, room)
              && wrote == Semantics.Execute(cfg, old(Abs()), w, pc, ir, x, y, room).wrote
    {
      hide Combine, SelectOne;
      var next, jump, skip := Fold(pc, 1), Fold(pc, rpa), Skip(cs, pc);
      var m := ir.modifier;
      wrote := false;
      assert queues[w] + [] == queues[w] && queues[w := queues[w]] == queues;
      match ir.op
      case Dat =>
      case Nop => Queue(w, next);
      case Mov =>
        Mov(t, m, aAt, air, y.num);
        wrote := true;
        Queue(w, next);
      case Add | Sub | Mul =>
        Arithmetic(ir.op, t, m, air, bir);
        wrote := true;
        Queue(w, next);
      case Div | Mod =>
        var alive;
        wrote, alive := Division(ir.op, t, m, air, bir);
        if alive {
          Queue(w, next);
        }
      case Jmp => Queue(w, jump);
      case Jmz => Queue(w, if IsZero(m, bir) then jump else next);
      case Jmn => Queue(w, if !IsZero(m, bir) then jump else next);
      case Djn =>
        var nz := Djn(t, m, bir);
        wrote := true;
        Queue(w, if nz then jump else next);
      case Spl =>
        Queue(w, next);
        if |queues[w]| < maxProcesses {
          Queue(w, jump);
          assert queues[w] == old(queues)[w] + [next, jump];
        }
      case Slt => Queue(w, if IsLess(m, air, bir) then skip else next);
      case Ldp =>
        Ldp(w, t, m, air);
        wrote := true;
        Queue(w, next);
      case Stp =>
        Stp(w, m, air, bir);
        Queue(w, next);
      case Cmp | Seq | Sne =>
        var eq := IsEqual(m, aAt, t, air, bir);
        var take := if ir.op == Sne then !eq else eq;
        Queue(w, if take then skip else next);
    }

    /** One instruction of warrior `w` and the cells it wrote, in order. */
    method StepNoting(w: nat) returns (alive: bool, notes: seq<nat>)
      requires Ready() && w < 2
      modifies this`queues, this`pspace, this`lastResult, this`steps, core
      ensures Ready() && Stepped(Abs(), alive, notes) == Semantics.Step(cfg, old(Abs()), w)
      ensures steps == old(steps) + if old(queues)[w] == [] then 0 else 1
    {
      hide Semantics.Execute, Performed, Evaluate;
      StepKeepsValid(cfg, Abs(), w);
      if queues[w] == [] {
        return false, [];
      }
      var pc := queues[w][0];
      queues := queues[w := queues[w][1..]];
      steps := steps + 1;
      var ir := core[pc];
      ghost var before := core[..];
      ghost var x := Evaluate(cs, before, pc, ir, ir.aMode, ir.a);
      var rpa, aAt, air, noted := Operand(pc, ir, ir.aMode, ir.a);
      ghost var y := Evaluate(cs, x.core, pc, ir, ir.bMode, ir.b);
      var wpb, _, bir, noted' := Operand(pc, ir, ir.bMode, ir.b);
      var t := Fold(pc, wpb);
      var wrote := Execute(w, pc, ir, rpa, aAt, air, t, bir, x, y);
      notes := noted + noted' + if wrote then [t] else [];
      alive := queues[w] != [];
    }

    /** The next move of a round that `whole` describes to its end. */
    method Move(w: nat, ghost left: nat, ghost whole: Played) returns (alive: bool)
      requires Ready() && w < 2 && queues[w] != [] && queues[1 - w] != []
      requires left > 0 && whole == Run(cfg, Abs(), w, left)
      modifies this`queues, this`pspace, this`lastResult, this`steps, core
      ensures Ready() && steps == old(steps) + 1
      ensures alive ==> queues[w] != [] && queues[1 - w] != []
      ensures if !alive then whole == Played(Abs(), Win(1 - w), 1)
              else var r := Run(cfg, Abs(), 1 - w, left - 1); whole == r.(steps := r.steps + 1)
    {
      StepKeepsValid(cfg, Abs(), w);
      var notes;
      alive, notes := StepNoting(w);
    }

    /** Alternate moves from `first` until a warrior is dead or the instructions
        are used up. */
    method Battle(first: nat) returns (outcome: Outcome)
      requires Ready() && first < 2 && queues[0] != [] && queues[1] != []
      modifies this`queues, this`pspace, this`lastResult, this`steps, this`lastRoundSteps, core
      ensures Ready() && (outcome.Win? ==> outcome.w < 2)
      ensures Played(Abs(), outcome, lastRoundSteps) == Run(cfg, old(Abs()), first, cfg.maxCycles * 2)
      ensures steps == old(steps) + lastRoundSteps
    {
      hide Valid, Run;
      var left: nat := cfg.maxCycles * 2;
      ghost var whole := Run(cfg, Abs(), first, left);
      ghost var rest := whole;
      var w: nat := first;
      var done: nat := 0;
      outcome := Tie;
      while left > 0
        invariant Ready() && w < 2 && queues[w] != [] && queues[1 - w] != []
        invariant steps == old(steps) + done
        invariant rest == Run(cfg, Abs(), w, left) && whole == rest.(steps := rest.steps + done)
      {
        done := done + 1;
        var alive := Move(w, left, rest);
        left := left - 1;
        if !alive {
          outcome := Win(1 - w);
          lastRoundSteps := done;
          return;
        }
        w := 1 - w;
        rest := Run(cfg, Abs(), w, left);
      }
      OutOfBudget(cfg, Abs(), w);
      lastRoundSteps := done;
    }

    /** One round; its result is left in P-space for the next. */
    method Round(a: Warrior, b: Warrior, posA: nat, posB: nat, first: nat) returns (outcome: Outcome)
      requires Fits() && Players(cfg, a, b) && ValidPspace(cfg, Abs())
      requires posA < cs && posB < cs && first < 2
      modifies this, core
      ensures Ready() && ValidPspace(cfg, Abs())
      ensures var p := Match.Round(cfg, old(Abs()), a, b, posA, posB, first);
              Abs() == p.m && outcome == p.outcome && lastRoundSteps == p.steps && steps == old(steps) + p.steps
    {
      hide Run, ValidCore, LoadCode;
      Load(a, b, posA, posB);
      outcome := Battle(first);
      FinishKeepsValidIff(cfg, Abs(), outcome);
      match outcome
      case Win(x) => lastResult := lastResult[x := 1][1 - x := 0];
      case Tie => lastResult := [2, 2];
    }

    /** A match of `rounds` rounds; the second warrior's position advances with
        the generator and the first mover alternates. */
    method Play(a: Warrior, b: Warrior, rounds: nat, seed: int) returns (score: Score)
      requires Fits() && Players(cfg, a, b) && Rng.Int32(seed)
      modifies this, core
      ensures Fits() && ValidPspace(cfg, Abs())
      ensures var p := Match.Play(cfg, old(Abs()), a, b, rounds, seed);
              Abs() == p.m && score == p.score && steps == old(steps) + p.steps
      ensures S.Counts(cfg, a, b, rounds, seed, score)
    {
      hide Valid, ValidPspace, Run, Match.Round, Match.BeginMatch, NormalisedWarrior, Rng.Next, S.Counts;
      S.PlayCounts(cfg, Abs(), a, b, rounds, seed);
      var sep := cfg.minDistance;
      var positions := cfg.coreSize + 1 - 2 * sep;
      var drawn := seed;
      score := NOSCORE;
      BeginMatch(a, b);
      ghost var base, whole := steps, Rounds(cfg, Abs(), a, b, 0, rounds, seed, score);
      for r := 0 to rounds
        invariant Fits() && ValidPspace(cfg, Abs()) && Rng.Int32(drawn)
        invariant base <= steps
        invariant var p := Rounds(cfg, Abs(), a, b, r, rounds, drawn, score);
                  whole == p.(steps := p.steps + (steps - base))
      {
        var pos := sep + drawn % positions;
        assert pos == Position(cfg, drawn);
        drawn := Rng.Next(drawn);
        var outcome := Round(a, b, 0, pos, r % 2);
        score := Count(score, outcome);
      }
    }
  }
}
