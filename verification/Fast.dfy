/** The fast engine (src/fast.rs): packed cells, ring-buffer queues, addresses
    folded by one subtraction. Every method states its effect on the machine
    the engine stands for, `Abs()`, in terms of `Semantics`. */
module FastEngine {
  import Bits
  import opened Redcode
  import opened Configs
  import opened Semantics
  import opened MachineFacts
  import opened Cells
  import M = Match

  /** Buffers of the right sizes that do not overlap, and heads, lengths and
      banks that fit them. */
  ghost predicate Layout(cfg: Config, core: array<Cell>, qbuf: seq<array<u16>>, head: seq<nat>, len: seq<nat>,
                         mask: nat,
                         cs: u32, maxProcesses: nat, pspace: seq<array<u16>>, bank: seq<nat>, lastResult: array<u16>,
                         pspaceSize: u32)
  {
    && 2 <= cfg.coreSize <= 65535 && cs as nat == cfg.coreSize
    && maxProcesses == cfg.maxProcesses && pspaceSize as nat == cfg.PspaceSize()
    && core.Length == cfg.coreSize
    && |qbuf| == 2 && |pspace| == 2 && lastResult.Length == 2
    && qbuf[0] != qbuf[1] && pspace[0] != pspace[1]
    && lastResult !in qbuf && lastResult !in pspace
    && pspace[0] !in qbuf && pspace[1] !in qbuf
    && Bits.IsPow2(mask + 1) && mask >= maxProcesses
    && qbuf[0].Length == mask + 1 && qbuf[1].Length == mask + 1
    && pspace[0].Length == cfg.PspaceSize() && pspace[1].Length == cfg.PspaceSize()
    && (bank == [0, 0] || bank == [0, 1])
    && |head| == 2 && |len| == 2
    && head[0] <= mask && head[1] <= mask && len[0] <= maxProcesses && len[1] <= maxProcesses
  }

  /** The machine that buffers with these contents stand for. */
  ghost function Denote(cells: seq<Cell>, q0: seq<u16>, q1: seq<u16>, head: seq<nat>, len: seq<nat>,
                        p0: seq<u16>, p1: seq<u16>, bank: seq<nat>, last: seq<u16>): Machine
    requires ValidCells(cells) && |head| == 2 && |len| == 2 && |bank| == 2
    requires head[0] < |q0| && head[1] < |q1| && len[0] <= |q0| && len[1] <= |q1|
  {
    Machine(
      DecodeAll(cells),
      [Ring(q0, head[0], len[0]), Ring(q1, head[1], len[1])],
      if bank[1] == 0 then [Nats(p0)] else [Nats(p0), Nats(p1)],
      bank,
      Nats(last))
  }

  /** The view of an engine that plays a round. */
  class Run {
    ghost const cfg: Config
    const core: array<Cell>
    const qbuf: seq<array<u16>>
    var head: seq<nat>
    var len: seq<nat>
    const mask: nat
    const cs: u32
    const maxProcesses: nat
    const pspace: seq<array<u16>>
    const bank: seq<nat>
    const lastResult: array<u16>
    const pspaceSize: u32

    ghost predicate Shape()
      reads this
    {
      Layout(cfg, core, qbuf, head, len, mask, cs, maxProcesses, pspace, bank, lastResult, pspaceSize)
    }

    /** Well-formed, whatever the numbers in it. */
    ghost predicate Rep()
      reads this, core
    {
      Shape() && ValidCells(core[..])
    }

    /** The machine this engine stands for. */
    ghost function Abs(): (m: Machine)
      requires Rep()
      reads this, core, qbuf, pspace, lastResult
      ensures |m.core| == cfg.coreSize && |m.queues| == 2
      ensures |m.queues[0]| == len[0] && |m.queues[1]| == len[1]
    {
      Denote(core[..], qbuf[0][..], qbuf[1][..], head, len, pspace[0][..], pspace[1][..], bank, lastResult[..])
    }

    ghost predicate Ready()
      reads this, core, qbuf, pspace, lastResult
    {
      Rep() && Valid(cfg, Abs())
    }

    /** The objects a view reads and writes. */
    ghost function Objects(): set<object>
    {
      {this, core, lastResult} + (set q | q in qbuf) + (set p | p in pspace)
    }

    constructor (ghost cfg: Config, core: array<Cell>, qbuf: seq<array<u16>>, head: seq<nat>, len: seq<nat>, mask: nat,
                 cs: u32,
                 maxProcesses: nat, pspace: seq<array<u16>>, bank: seq<nat>, lastResult: array<u16>, pspaceSize: u32)
      ensures this.cfg == cfg && this.core == core && this.qbuf == qbuf && this.head == head && this.len == len
      ensures this.mask == mask && this.cs == cs && this.maxProcesses == maxProcesses && this.pspace == pspace
      ensures this.bank == bank && this.lastResult == lastResult && this.pspaceSize == pspaceSize
    {
      this.cfg, this.core, this.qbuf, this.head, this.len := cfg, core, qbuf, head, len;
      this.mask, this.cs, this.maxProcesses, this.pspace := mask, cs, maxProcesses, pspace;
      this.bank, this.lastResult, this.pspaceSize := bank, lastResult, pspaceSize;
    }

    // ---- queues ----

    /** The head of a queue; the index is always inside the ring. */
    method Pop(w: nat) returns (v: u16)
      requires Rep() && w < 2 && len[w] > 0
      modifies this`head, this`len
      ensures Rep() && len == old(len)[w := old(len[w]) - 1]
      ensures var q := old(Abs()).queues[w];
              v as nat == q[0] && Abs() == old(Abs()).(queues := old(Abs()).queues[w := q[1..]])
    {
      var h := head[w];
      v := qbuf[w][h];
      Bits.MaskWraps(h + 1, mask);
      RingPop(qbuf[w][..], h, len[w]);
      head := head[w := Bits.And(h + 1, mask)];
      len := len[w := len[w] - 1];
    }

    /** Append to a queue that is below the process limit: the ring has a slot
        free, so nothing is overwritten. */
    method Push(w: nat, v: u16)
      requires Rep() && w < 2 && len[w] < maxProcesses
      modifies this`len, qbuf[w]
      ensures Rep() && len == old(len)[w := old(len[w]) + 1]
      ensures Abs() == old(Abs()).(queues := old(Abs()).queues[w := old(Abs()).queues[w] + [v as nat]])
    {
      Bits.MaskWraps(head[w] + len[w], mask);
      var at := Bits.And(head[w] + len[w], mask);
      RingPush(qbuf[w][..], head[w], len[w], v);
      qbuf[w][at] := v;
      len := len[w := len[w] + 1];
    }

    // ---- cells ----

    function Fold(x: u32): (r: u32)
      requires (x as nat) < 2 * cs as nat
      ensures r as nat == if x >= cs then x as nat - cs as nat else x as nat
      ensures r < cs
    {
      if x >= cs then x - cs else x
    }

    function CellAt(i: u32): (c: Cell)
      requires Rep() && i < cs
      reads this, core, qbuf, pspace, lastResult
      ensures ValidCell(c) && Decode(c) == Abs().core[i]
    {
      core[i]
    }

    method SetCell(i: u32, c: Cell)
      requires Rep() && i < cs && ValidCell(c)
      modifies core
      ensures Rep() && Abs() == Write(old(Abs()), i as nat, Decode(c))
    {
      core[i] := c;
      assert core[..] == old(core[..])[i := c];
      assert DecodeAll(core[..]) == DecodeAll(old(core[..]))[i := Decode(c)];
    }

    method SetA(i: u32, v: u16)
      requires Rep() && i < cs
      modifies core
      ensures Rep() && Abs() == Write(old(Abs()), i as nat, Put(old(Abs()).core[i], FA, v as nat))
    {
      SetCell(i, CellAt(i).(a := v));
    }

    method SetB(i: u32, v: u16)
      requires Rep() && i < cs
      modifies core
      ensures Rep() && Abs() == Write(old(Abs()), i as nat, Put(old(Abs()).core[i], FB, v as nat))
    {
      SetCell(i, CellAt(i).(b := v));
    }

    method SetBoth(i: u32, a: u16, b: u16)
      requires Rep() && i < cs
      modifies core
      ensures Rep() && Abs() == Write(old(Abs()), i as nat, old(Abs()).core[i].(a := a as nat, b := b as nat))
    {
      SetCell(i, CellAt(i).(a := a, b := b));
    }

    // ---- operands ----

    function Down(x: u16): (r: u16)
      requires Shape() && x as nat < cfg.coreSize
      reads this
      ensures r as nat == Dec(cfg.coreSize, x as nat)
    {
      if x == 0 then (cs - 1) as u16 else x - 1
    }

    function Up(x: u16): (r: u16)
      requires Shape() && x as nat < cfg.coreSize
      reads this
      ensures r as nat == Inc(cfg.coreSize, x as nat)
    {
      if x as u32 + 1 == cs then 0 else x + 1
    }

    /** Pointer offset, address, and the numbers read there. */
    method Operand(pc: u32, ir: Cell, mode: u8, field: u16) returns (ptr: u32, at: u32, a: u16, b: u16)
      requires Ready() && pc < cs && (field as u32) < cs && mode < 8
      requires ValidCell(ir) && Normalised(cfg.coreSize, Decode(ir))
      modifies core
      ensures Rep()
      ensures var o := Evaluate(cfg.coreSize, old(Abs()).core, pc as nat, Decode(ir), MODES[mode], field as nat);
              && Abs() == old(Abs()).(core := o.core)
              && ptr as nat == o.ptr && at as nat == o.at && o.num == Numbers(a as nat, b as nat)
    {
      hide ValidCells, ValidPspace, ValidQueues, Abs;
      ModeTable(mode);
      if mode == IMMEDIATE {
        return 0, pc, ir.a, ir.b;
      } else if mode == DIRECT {
        at := Fold(pc + field as u32);
        var c := CellAt(at);
        return field as u32, at, c.a, c.b;
      } else {
        ptr, at, a, b := Indirect(pc, ir, mode, field);
      }
    }

    method Indirect(pc: u32, ghost ir: Cell, mode: u8, field: u16) returns (ptr: u32, at: u32, a: u16, b: u16)
      requires Rep() && ValidCore(cfg.coreSize, Abs().core) && pc < cs && (field as u32) < cs && 2 <= mode < 8
      requires ValidCell(ir) && Normalised(cfg.coreSize, Decode(ir))
      modifies core
      ensures Rep()
      ensures var o := Evaluate(cfg.coreSize, old(Abs()).core, pc as nat, Decode(ir), MODES[mode], field as nat);
              && Abs() == old(Abs()).(core := o.core)
              && ptr as nat == o.ptr && at as nat == o.at && o.num == Numbers(a as nat, b as nat)
    {
      hide ValidCells, Predecrement, Postincrement, Abs;
      ModeTable(mode);
      var p := Fold(pc + field as u32);
      var ind := Before(p, mode);
      ptr := Fold(field as u32 + ind as u32);
      at := Fold(pc + ptr);
      var c := CellAt(at);
      a, b := c.a, c.b;
      After(p, mode);
    }

    /** Predecrement, then the number the indirection goes by. */
    method Before(p: u32, mode: u8) returns (ind: u16)
      requires Rep() && ValidCore(cfg.coreSize, Abs().core) && p < cs && 2 <= mode < 8
      modifies core
      ensures Rep()
      ensures Abs() == old(Abs()).(core := Predecrement(cfg.coreSize, old(Abs()).core, p as nat, MODES[mode]))
      ensures ind as nat == Get(Abs().core[p], Via(MODES[mode]))
    {
      hide ValidCells, Dec, Abs;
      ModeTable(mode);
      if mode == A_PRE {
        ind := Down(CellAt(p).a);
        SetA(p, ind);
      } else if mode == B_PRE {
        ind := Down(CellAt(p).b);
        SetB(p, ind);
      } else if mode == A_IND || mode == A_POST {
        ind := CellAt(p).a;
      } else {
        ind := CellAt(p).b;
      }
    }

    /** Postincrement. */
    method After(p: u32, mode: u8)
      requires Rep() && ValidCore(cfg.coreSize, Abs().core) && p < cs && 2 <= mode < 8
      modifies core
      ensures Rep()
      ensures Abs() == old(Abs()).(core := Postincrement(cfg.coreSize, old(Abs()).core, p as nat, MODES[mode]))
    {
      hide ValidCells, Inc, Abs;
      ModeTable(mode);
      if mode == A_POST {
        SetA(p, Up(CellAt(p).a));
      } else if mode == B_POST {
        SetB(p, Up(CellAt(p).b));
      }
    }

    // ---- P-space ----

    function GetPspace(w: nat, idx: u16): (v: u16)
      requires Ready() && w < 2
      reads this, core, qbuf, pspace, lastResult
      ensures v as nat == Semantics.GetPspace(cfg, Abs(), w, idx as nat)
    {
      var i := (idx as u32 % pspaceSize) as nat;
      if i == 0 then lastResult[w] else pspace[bank[w]][i]
    }

    method SetPspace(w: nat, idx: u16, v: u16)
      requires Ready() && w < 2 && v as nat < cfg.coreSize
      modifies pspace, lastResult
      ensures Rep() && Abs() == Semantics.SetPspace(cfg, old(Abs()), w, idx as nat, v as nat)
    {
      hide ValidCore, ValidQueues, ValidCells, Ring, DecodeAll;
      var i := (idx as u32 % pspaceSize) as nat;
      if i == 0 {
        lastResult[w] := v;
        assert Nats(lastResult[..]) == Nats(old(lastResult[..]))[w := v as nat];
      } else {
        var b := bank[w];
        pspace[b][i] := v;
        assert Nats(pspace[b][..]) == Nats(old(pspace[b][..]))[i := v as nat];
      }
    }

    // ---- arithmetic of the arms ----

    function Calc(op: u8, x: u16, y: u16): (r: u16)
      requires Shape() && x as nat < cfg.coreSize && y as nat < cfg.coreSize
      requires op == O_ADD || op == O_SUB || op == O_MUL
      reads this
      ensures r as nat == Arith(OPCODES[op], cfg.coreSize, x as nat, y as nat)
    {
      OpcodeTable(op);
      if op == O_ADD then
        var s := x as u32 + y as u32;
        (if s >= cs then s - cs else s) as u16
      else if op == O_SUB then
        var s := x as u32 + cs - y as u32;
        (if s >= cs then s - cs else s) as u16
      else Product(x, y)
    }

    /** Multiplied in 32 bits and folded. */
    function Product(x: u16, y: u16): (r: u16)
      requires Shape() && x as nat < cfg.coreSize && y as nat < cfg.coreSize
      reads this
      ensures r as nat == Times(cfg.coreSize, x as nat, y as nat)
    {
      ProductFits(x as nat, y as nat, cfg.coreSize);
      ((x as u32 * y as u32) % cs) as u16
    }

    /** The product of two numbers of the core never wraps 32 bits. */
    static lemma ProductFits(x: nat, y: nat, cs: nat)
      requires x < cs && y < cs && cs <= 65535
      ensures x * y < 0x1_0000_0000 && (x * y) % cs < cs
    {
      assert x * y <= 65535 * y;
    }

    // ---- the arms of exec that write the core ----

    static lemma CellsNormalised(cs: nat, core: seq<Instruction>, i: nat)
      requires ValidCore(cs, core) && i < cs
      ensures Normalised(cs, core[i])
    {
    }

    static lemma MovedCell(cs: nat, m: Modifier, c: Instruction, src: Instruction, x: Numbers, y: Numbers)
      requires Normalised(cs, c) && Normalised(cs, src) && Small(cs, x) && Small(cs, y)
      ensures Combine(Opcode.Mov, cs, Select(m), if m.MI? then src else c, x, y) ==
              match m
              case MA => c.(a := x.a)
              case MB => c.(b := x.b)
              case MAB => c.(b := x.a)
              case MBA => c.(a := x.b)
              case MF => c.(a := x.a, b := x.b)
              case MX => c.(a := x.b, b := x.a)
              case MI => src.(a := x.a, b := x.b)
    {
    }

    method Mov(t: u32, m: u8, aAt: u32, aa: u16, ab: u16, ghost y: Numbers)
      requires Rep() && t < cs && aAt < cs && m < 7
      requires ValidCore(cfg.coreSize, Abs().core)
      requires Small(cfg.coreSize, Numbers(aa as nat, ab as nat)) && Small(cfg.coreSize, y)
      modifies core
      ensures Rep()
      ensures var core, mod := old(Abs()).core, MODIFIERS[m];
              var base := if mod.MI? then core[aAt] else core[t];
              Abs() == Write(old(Abs()), t as nat,
                             Combine(Opcode.Mov, cfg.coreSize, Select(mod), base, Numbers(aa as nat, ab as nat), y))
    {
      hide ValidCells, ValidCore, Abs, Combine, Select;
      ModifierTable(m);
      ghost var core := Abs().core;
      assert Normalised(cfg.coreSize, core[aAt]) && Normalised(cfg.coreSize, core[t]) by {
        CellsNormalised(cfg.coreSize, core, aAt as nat);
        CellsNormalised(cfg.coreSize, core, t as nat);
      }
      MovedCell(cfg.coreSize, MODIFIERS[m], core[t], core[aAt], Numbers(aa as nat, ab as nat), y);
      if m == M_I {
        var src := CellAt(aAt);
        SetCell(t, src.(a := aa, b := ab));
      } else if m == M_A {
        SetA(t, aa);
      } else if m == M_B {
        SetB(t, ab);
      } else if m == M_AB {
        SetB(t, aa);
      } else if m == M_BA {
        SetA(t, ab);
      } else if m == M_F {
        SetBoth(t, aa, ab);
      } else {
        SetBoth(t, ab, aa);
      }
    }

    method Arithmetic(op: u8, t: u32, m: u8, aa: u16, ab: u16, ba: u16, bb: u16)
      requires op == O_ADD || op == O_SUB || op == O_MUL
      requires Rep() && t < cs && m < 7 && ValidCore(cfg.coreSize, Abs().core)
      requires Small(cfg.coreSize, Numbers(aa as nat, ab as nat)) && Small(cfg.coreSize, Numbers(ba as nat, bb as nat))
      modifies core
      ensures Rep()
      ensures Abs() == Write(old(Abs()), t as nat,
                             Combine(OPCODES[op], cfg.coreSize, Select(MODIFIERS[m]), old(Abs()).core[t],
                                     Numbers(aa as nat, ab as nat), Numbers(ba as nat, bb as nat)))
    {
      hide ValidCells, Abs, Arith;
      ModifierTable(m);
      if m == M_A {
        SetA(t, Calc(op, ba, aa));
      } else if m == M_B {
        SetB(t, Calc(op, bb, ab));
      } else if m == M_AB {
        SetB(t, Calc(op, bb, aa));
      } else if m == M_BA {
        SetA(t, Calc(op, ba, ab));
      } else if m == M_X {
        SetBoth(t, Calc(op, ba, ab), Calc(op, bb, aa));
      } else {
        SetBoth(t, Calc(op, ba, aa), Calc(op, bb, ab));
      }
    }

    /** `x` over (or modulo) `y` into a field of cell t; false, and the field
        left alone, when `y` is zero. */
    method DivideField(div: bool, t: u32, f: Field, x: u16, y: u16) returns (done: bool)
      requires Rep() && t < cs
      modifies core
      ensures Rep() && done == (y != 0)
      ensures var c := old(Abs()).core[t];
              Abs() == Write(old(Abs()), t as nat,
                             if y == 0 then c else Put(c, f, Quotient(if div then Div else Mod, x as nat, y as nat)))
    {
      hide ValidCells, Abs;
      WriteSame(Abs(), t as nat);
      if y == 0 {
        return false;
      }
      QuotientBound(x as nat, y as nat);
      var v := if div then x / y else x % y;
      if f.FA? {
        SetA(t, v);
      } else {
        SetB(t, v);
      }
      return true;
    }

    static lemma WriteSame(m: Machine, t: nat)
      requires t < |m.core|
      ensures Write(m, t, m.core[t]) == m
    {
    }

    static lemma WriteTwice(m: Machine, t: nat, c: Instruction, d: Instruction)
      requires t < |m.core|
      ensures Write(Write(m, t, c), t, d) == Write(m, t, d) && Write(m, t, c).core[t] == c
    {
    }

    method Division(op: u8, t: u32, m: u8, aa: u16, ab: u16, ba: u16, bb: u16) returns (alive: bool)
      requires op == O_DIV || op == O_MOD
      requires Rep() && t < cs && m < 7
      modifies core
      ensures Rep()
      ensures var d := Divide(OPCODES[op], Select(MODIFIERS[m]), old(Abs()).core[t],
                              Numbers(aa as nat, ab as nat), Numbers(ba as nat, bb as nat));
              Abs() == Write(old(Abs()), t as nat, d.cell) && alive == d.whole
    {
      hide ValidCells, Abs, Quotient;
      OpcodeTable(op);
      ModifierTable(m);
      var div := op == O_DIV;
      ghost var was := Abs();
      if m == M_A {
        alive := DivideField(div, t, FA, ba, aa);
      } else if m == M_B {
        alive := DivideField(div, t, FB, bb, ab);
      } else if m == M_AB {
        alive := DivideField(div, t, FB, bb, aa);
      } else if m == M_BA {
        alive := DivideField(div, t, FA, ba, ab);
      } else if m == M_X {
        var x := DivideField(div, t, FA, ba, ab);
        ghost var half := Abs();
        var y := DivideField(div, t, FB, bb, aa);
        WriteTwice(was, t as nat, half.core[t], Abs().core[t]);
        alive := x && y;
      } else {
        var x := DivideField(div, t, FA, ba, aa);
        ghost var half := Abs();
        var y := DivideField(div, t, FB, bb, ab);
        WriteTwice(was, t as nat, half.core[t], Abs().core[t]);
        alive := x && y;
      }
    }

    method Djn(t: u32, m: u8, ba: u16, bb: u16) returns (nz: bool)
      requires Rep() && t < cs && m < 7 && ValidCore(cfg.coreSize, Abs().core)
      requires Small(cfg.coreSize, Numbers(ba as nat, bb as nat))
      modifies core
      ensures Rep()
      ensures Abs() == Write(old(Abs()), t as nat, Decrement(cfg.coreSize, Select(MODIFIERS[m]), old(Abs()).core[t]))
      ensures nz == !AllZero(Select(MODIFIERS[m]), Numbers(Dec(cfg.coreSize, ba as nat), Dec(cfg.coreSize, bb as nat)))
    {
      hide ValidCells, Abs, Dec;
      ModifierTable(m);
      var c := CellAt(t);
      assert Normalised(cfg.coreSize, Abs().core[t]);
      if m == M_A || m == M_BA {
        SetA(t, Down(c.a));
        nz := Down(ba) != 0;
      } else if m == M_B || m == M_AB {
        SetB(t, Down(c.b));
        nz := Down(bb) != 0;
      } else {
        SetBoth(t, Down(c.a), Down(c.b));
        nz := Down(ba) != 0 || Down(bb) != 0;
      }
    }

    method Ldp(w: nat, t: u32, m: u8, aa: u16, ab: u16)
      requires Ready() && w < 2 && t < cs && m < 7
      modifies core
      ensures Rep()
      ensures var one := SelectOne(MODIFIERS[m]);
              Abs() == Write(old(Abs()), t as nat, Put(old(Abs()).core[t], one.dst,
                             Semantics.GetPspace(cfg, old(Abs()), w, Num(Numbers(aa as nat, ab as nat), one.src))))
    {
      hide ValidCells, Abs, Semantics.GetPspace, ValidPspace, ValidQueues, ValidCore;
      ModifierTable(m);
      var v := if m == M_A || m == M_AB then GetPspace(w, aa) else GetPspace(w, ab);
      if m == M_A || m == M_BA {
        SetA(t, v);
      } else {
        SetB(t, v);
      }
    }

    method Stp(w: nat, m: u8, aa: u16, ab: u16, ba: u16, bb: u16)
      requires Ready() && w < 2 && m < 7
      requires Small(cfg.coreSize, Numbers(aa as nat, ab as nat))
      modifies pspace, lastResult
      ensures Rep()
      ensures var one := SelectOne(MODIFIERS[m]);
              Abs() == Semantics.SetPspace(cfg, old(Abs()), w,
                                           Num(Numbers(ba as nat, bb as nat), one.dst),
                                               Num(Numbers(aa as nat, ab as nat), one.src))
    {
      hide ValidCells, Abs, Semantics.SetPspace, ValidPspace, ValidQueues, ValidCore;
      ModifierTable(m);
      if m == M_A {
        SetPspace(w, ba, aa);
      } else if m == M_AB {
        SetPspace(w, bb, aa);
      } else if m == M_BA {
        SetPspace(w, ba, ab);
      } else {
        SetPspace(w, bb, ab);
      }
    }

    // ---- the arms that only compare ----

    static predicate IsZero(m: u8, ba: u16, bb: u16)
      requires m < 7
      ensures IsZero(m, ba, bb) == AllZero(Select(MODIFIERS[m]), Numbers(ba as nat, bb as nat))
    {
      ModifierTable(m);
      if m == M_A || m == M_BA then ba == 0
      else if m == M_B || m == M_AB then bb == 0
      else ba == 0 && bb == 0
    }

    static predicate IsLess(m: u8, aa: u16, ab: u16, ba: u16, bb: u16)
      requires m < 7
      ensures IsLess(m, aa, ab, ba, bb) ==
              Less(Select(MODIFIERS[m]), Numbers(aa as nat, ab as nat), Numbers(ba as nat, bb as nat))
    {
      ModifierTable(m);
      if m == M_A then aa < ba
      else if m == M_B then ab < bb
      else if m == M_AB then aa < bb
      else if m == M_BA then ab < ba
      else if m == M_X then aa < bb && ab < ba
      else aa < ba && ab < bb
    }

    /** Comparing packed cells by three bytes is comparing opcode, modifier and
        both modes. */
    static lemma SameBytes(x: Cell, y: Cell)
      requires ValidCell(x) && ValidCell(y)
      ensures (x.opm == y.opm && x.am == y.am && x.bm == y.bm) == SameKind(Decode(x), Decode(y))
    {
      DecodedCodes(x);
      DecodedCodes(y);
    }

    predicate IsEqual(m: u8, aAt: u32, t: u32, aa: u16, ab: u16, ba: u16, bb: u16)
      requires Rep() && m < 7 && aAt < cs && t < cs
      reads this, core, qbuf, pspace, lastResult
      ensures IsEqual(m, aAt, t, aa, ab, ba, bb) ==
              (NumbersEqual(Select(MODIFIERS[m]), Numbers(aa as nat, ab as nat), Numbers(ba as nat, bb as nat))
               && (MODIFIERS[m].MI? ==> SameKind(Abs().core[aAt], Abs().core[t])))
    {
      ModifierTable(m);
      if m == M_A then aa == ba
      else if m == M_B then ab == bb
      else if m == M_AB then aa == bb
      else if m == M_BA then ab == ba
      else if m == M_F then aa == ba && ab == bb
      else if m == M_X then aa == bb && ab == ba
      else
        var x, y := CellAt(aAt), CellAt(t);
        SameBytes(x, y);
        x.opm == y.opm && x.am == y.am && x.bm == y.bm && aa == ba && ab == bb
    }

    // ---- one instruction ----

    /** The body of an instruction whose process is off the queue. `opm` is the
        dispatch byte of `ir`. */
    method Exec(w: nat, pc: u32, ir: Cell, opm: u8) returns (alive: bool)
      requires Ready() && w < 2 && pc < cs && len[w] < maxProcesses
      requires ir == core[pc] && opm == ir.opm
      modifies this`len, core, qbuf[w], pspace, lastResult
      ensures Rep()
      ensures var m, i, n := old(Abs()), Decode(ir), cfg.coreSize;
              var x := Evaluate(n, m.core, pc as nat, i, i.aMode, i.a);
              var y := Evaluate(n, x.core, pc as nat, i, i.bMode, i.b);
              && Abs() == Performed(cfg, m.(core := y.core), w, pc as nat, i, x, y, old(len[w]) + 1 < maxProcesses)
              && alive == (Abs().queues[w] != [])
    {
      hide Abs, ValidCells, Evaluate, Performed, ValidPspace, ValidQueues;
      assert Decode(ir) == Abs().core[pc] by { var c := CellAt(pc); }
      DecodedCodes(ir);
      ghost var m, i := Abs(), Decode(ir);
      ghost var x := Evaluate(cfg.coreSize, m.core, pc as nat, i, i.aMode, i.a);
      ghost var y := Evaluate(cfg.coreSize, x.core, pc as nat, i, i.bMode, i.b);
      var rpa, aAt, aa, ab := Operand(pc, ir, ir.am, ir.a);
      NewCoreKeepsValid(cfg, m, x.core);
      var wpb, _, ba, bb := Operand(pc, ir, ir.bm, ir.b);
      NewCoreKeepsValid(cfg, m, y.core);
      var t := Fold(pc + wpb);
      Perform(w, pc, opm, rpa, aAt, aa, ab, t, ba, bb, i, x, y);
      alive := len[w] != 0;
    }

    /** The match on the opcode; `x` and `y` are the operands as the
        specification evaluates them. */
    method Perform(w: nat, pc: u32, opm: u8, rpa: u32, aAt: u32, aa: u16, ab: u16, t: u32, ba: u16, bb: u16,
                   ghost i: Instruction, ghost x: Semantics.Operand, ghost y: Semantics.Operand)
      requires Ready() && w < 2 && pc < cs && len[w] < maxProcesses && aAt < cs && t < cs && rpa < cs
      requires opm == EncOp(i.op) * 8 + EncMod(i.modifier)
      requires ValidOperand(cfg.coreSize, x) && ValidOperand(cfg.coreSize, y)
      requires rpa as nat == x.ptr && aAt as nat == x.at && x.num == Numbers(aa as nat, ab as nat)
      requires t as nat == y.at && y.num == Numbers(ba as nat, bb as nat)
      modifies this`len, core, qbuf[w], pspace, lastResult
      ensures Rep()
      ensures Abs() == Performed(cfg, old(Abs()), w, pc as nat, i, x, y, old(len[w]) + 1 < maxProcesses)
    {
      hide Abs, ValidCells, ValidPspace, ValidQueues, Performed, SelectOne, Select;
      var op, m := OpOf(opm), ModOf(opm);
      TablesInvert(i);
      assert op == EncOp(i.op) && m == EncMod(i.modifier);
      if op == O_DAT {
        Nothing(cfg, Abs(), w, pc as nat, i, x, y, len[w] + 1 < maxProcesses);
      } else if op == O_DJN {
        DecreaseAndJump(w, pc, m, rpa, t, ba, bb, i, x, y);
      } else if op == O_SPL {
        Split(w, Fold(pc + 1) as u16, Fold(pc + rpa) as u16, pc as nat, i, x, y);
      } else if op == O_MOV || (O_ADD <= op <= O_MOD) || op >= O_LDP {
        Store(w, pc, op, m, aAt, aa, ab, t, ba, bb, i, x, y);
      } else {
        Branch(w, pc, op, m, rpa, aAt, aa, ab, t, ba, bb, i, x, y);
      }
    }

    static lemma Nothing(cfg: Config, m: Machine, w: nat, pc: nat, i: Instruction, x: Semantics.Operand,
                         y: Semantics.Operand, room: bool)
      requires Valid(cfg, m) && w < 2 && pc < cfg.coreSize && i.op.Dat?
      requires ValidOperand(cfg.coreSize, x) && ValidOperand(cfg.coreSize, y)
      ensures Performed(cfg, m, w, pc, i, x, y, room) == m
    {
      assert m.queues[w] + [] == m.queues[w];
    }

    method DecreaseAndJump(w: nat, pc: u32, m: u8, rpa: u32, t: u32, ba: u16, bb: u16,
                           ghost i: Instruction, ghost x: Semantics.Operand, ghost y: Semantics.Operand)
      requires Ready() && w < 2 && pc < cs && len[w] < maxProcesses && t < cs && rpa < cs
      requires i.op.Djn? && m == EncMod(i.modifier)
      requires ValidOperand(cfg.coreSize, x) && ValidOperand(cfg.coreSize, y)
      requires rpa as nat == x.ptr && t as nat == y.at && y.num == Numbers(ba as nat, bb as nat)
      modifies this`len, core, qbuf[w]
      ensures Rep()
      ensures Abs() == Performed(cfg, old(Abs()), w, pc as nat, i, x, y, old(len[w]) + 1 < maxProcesses)
    {
      hide Abs, ValidCells, ValidPspace, ValidQueues, Select, AllZero, Decrement;
      TablesInvert(i);
      var nz := Djn(t, m, ba, bb);
      Push(w, Fold(pc + if nz then rpa else 1) as u16);
    }

    /** Queue the next process, then the new one while there is room. */
    method Split(w: nat, next: u16, jump: u16, ghost pc: nat,
                 ghost i: Instruction, ghost x: Semantics.Operand, ghost y: Semantics.Operand)
      requires Ready() && w < 2 && pc < cfg.coreSize && len[w] < maxProcesses && i.op.Spl?
      requires ValidOperand(cfg.coreSize, x) && ValidOperand(cfg.coreSize, y)
      requires next as nat == Plus(cfg.coreSize, pc, 1) && jump as nat == Plus(cfg.coreSize, pc, x.ptr)
      modifies this`len, qbuf[w]
      ensures Rep()
      ensures Abs() == Performed(cfg, old(Abs()), w, pc, i, x, y, old(len[w]) + 1 < maxProcesses)
    {
      hide Abs, ValidCells, ValidPspace, ValidQueues;
      ghost var q := Abs().queues;
      Push(w, next);
      if len[w] < maxProcesses {
        Push(w, jump);
        assert q[w] + [next as nat] + [jump as nat] == q[w] + [next as nat, jump as nat];
      }
    }

    /** The arms that change nothing but where the process goes. */
    method Branch(w: nat, pc: u32, op: u8, m: u8, rpa: u32, aAt: u32, aa: u16, ab: u16, t: u32, ba: u16, bb: u16,
                  ghost i: Instruction, ghost x: Semantics.Operand, ghost y: Semantics.Operand)
      requires Ready() && w < 2 && pc < cs && len[w] < maxProcesses && aAt < cs && t < cs && rpa < cs
      requires i.op.Nop? || i.op.Jmp? || i.op.Jmz? || i.op.Jmn? || i.op.Slt? || i.op.Cmp? || i.op.Seq? || i.op.Sne?
      requires op == EncOp(i.op) && m == EncMod(i.modifier)
      requires ValidOperand(cfg.coreSize, x) && ValidOperand(cfg.coreSize, y)
      requires rpa as nat == x.ptr && aAt as nat == x.at && x.num == Numbers(aa as nat, ab as nat)
      requires t as nat == y.at && y.num == Numbers(ba as nat, bb as nat)
      modifies this`len, qbuf[w]
      ensures Rep()
      ensures Abs() == Performed(cfg, old(Abs()), w, pc as nat, i, x, y, old(len[w]) + 1 < maxProcesses)
    {
      hide Abs, ValidCells, ValidPspace, ValidQueues, Execute;
      var to := Goal(w, pc, op, m, rpa, aAt, aa, ab, t, ba, bb, i, x, y, len[w] + 1 < maxProcesses);
      Push(w, to);
    }

    /** Where a branch goes on. */
    method Goal(ghost w: nat, pc: u32, op: u8, m: u8, rpa: u32, aAt: u32, aa: u16, ab: u16, t: u32, ba: u16, bb: u16,
                ghost i: Instruction, ghost x: Semantics.Operand, ghost y: Semantics.Operand, ghost room: bool)
      returns (to: u16)
      requires Ready() && w < 2 && pc < cs && aAt < cs && t < cs && rpa < cs
      requires i.op.Nop? || i.op.Jmp? || i.op.Jmz? || i.op.Jmn? || i.op.Slt? || i.op.Cmp? || i.op.Seq? || i.op.Sne?
      requires op == EncOp(i.op) && m == EncMod(i.modifier)
      requires ValidOperand(cfg.coreSize, x) && ValidOperand(cfg.coreSize, y)
      requires rpa as nat == x.ptr && aAt as nat == x.at && x.num == Numbers(aa as nat, ab as nat)
      requires t as nat == y.at && y.num == Numbers(ba as nat, bb as nat)
      ensures Execute(cfg, Abs(), w, pc as nat, i, x, y, room) == Effect(Abs(), [to as nat], false)
    {
      hide Abs, ValidCells, ValidPspace, ValidQueues, AllZero, Less, NumbersEqual, Select, SameKind;
      TablesInvert(i);
      var next, jump, skip := Fold(pc + 1) as u16, Fold(pc + rpa) as u16, Fold(pc + 2) as u16;
      if op == O_NOP {
        to := next;
      } else if op == O_JMP {
        to := jump;
      } else if op == O_JMZ {
        to := if IsZero(m, ba, bb) then jump else next;
      } else if op == O_JMN {
        to := if !IsZero(m, ba, bb) then jump else next;
      } else if op == O_SLT {
        to := if IsLess(m, aa, ab, ba, bb) then skip else next;
      } else {
        var eq := IsEqual(m, aAt, t, aa, ab, ba, bb);
        var take := if op == O_SNE then !eq else eq;
        to := if take then skip else next;
      }
    }

    /** The arms that write, and then go on to the next cell unless a division
        by zero killed the process. */
    method Store(w: nat, pc: u32, op: u8, m: u8, aAt: u32, aa: u16, ab: u16, t: u32, ba: u16, bb: u16,
                 ghost i: Instruction, ghost x: Semantics.Operand, ghost y: Semantics.Operand)
      requires Ready() && w < 2 && pc < cs && len[w] < maxProcesses && aAt < cs && t < cs
      requires i.op.Mov? || i.op.Add? || i.op.Sub? || i.op.Mul? || i.op.Div? || i.op.Mod? || i.op.Ldp? || i.op.Stp?
      requires op == EncOp(i.op) && m == EncMod(i.modifier)
      requires ValidOperand(cfg.coreSize, x) && ValidOperand(cfg.coreSize, y)
      requires aAt as nat == x.at && x.num == Numbers(aa as nat, ab as nat)
      requires t as nat == y.at && y.num == Numbers(ba as nat, bb as nat)
      modifies this`len, core, qbuf[w], pspace, lastResult
      ensures Rep()
      ensures Abs() == Performed(cfg, old(Abs()), w, pc as nat, i, x, y, old(len[w]) + 1 < maxProcesses)
    {
      hide Abs, ValidCells, ValidPspace, ValidQueues, Combine, Divide, Decrement, Semantics.GetPspace,
          Semantics.SetPspace,
        SelectOne, Select, Normalised;
      TablesInvert(i);
      ghost var room := len[w] + 1 < maxProcesses;
      var goesOn := true;
      if op == O_MOV {
        Mov(t, m, aAt, aa, ab, y.num);
      } else if op == O_ADD || op == O_SUB || op == O_MUL {
        Arithmetic(op, t, m, aa, ab, ba, bb);
      } else if op == O_DIV || op == O_MOD {
        goesOn := Division(op, t, m, aa, ab, ba, bb);
      } else if op == O_LDP {
        Ldp(w, t, m, aa, ab);
      } else {
        Stp(w, m, aa, ab, ba, bb);
      }
      ghost var e := Semantics.Execute(cfg, old(Abs()), w, pc as nat, i, x, y, room);
      assert Abs() == e.m && e.next == if goesOn then [Plus(cfg.coreSize, pc as nat, 1)] else [];
      ghost var q := Abs().queues;
      assert q[w] + [] == q[w] && q[w := q[w]] == q;
      if goesOn {
        Push(w, Fold(pc + 1) as u16);
      }
    }

    /** One instruction of warrior `w`, which has a process; false if it has
        none after. */
    method Step(w: nat) returns (alive: bool)
      requires Ready() && w < 2 && len[w] > 0
      modifies this`head, this`len, core, qbuf[w], pspace, lastResult
      ensures Ready() && Abs() == Semantics.Step(cfg, old(Abs()), w).m
      ensures alive == Semantics.Step(cfg, old(Abs()), w).alive == (len[w] > 0) && len[1 - w] == old(len[1 - w])
    {
      hide Abs, ValidCells, Evaluate, Performed, ValidPspace, ValidQueues, Semantics.Execute;
      StepKeepsValid(cfg, Abs(), w);
      ghost var m := Abs();
      PopKeepsValid(cfg, m, w);
      var head := Pop(w);
      var pc := head as u32;
      var ir := CellAt(pc);
      alive := Exec(w, pc, ir, ir.opm);
    }

    /** The next move of a round that `whole` describes to its end. */
    method Move(w: nat, ghost left: nat, ghost whole: M.Played) returns (alive: bool)
      requires Ready() && w < 2 && len[0] > 0 && len[1] > 0
      requires left > 0 && whole == M.Run(cfg, Abs(), w, left)
      modifies this`head, this`len, core, qbuf, pspace, lastResult
      ensures Ready() && (alive ==> len[0] > 0 && len[1] > 0)
      ensures if !alive then whole == M.Played(Abs(), M.Win(1 - w), 1)
              else var r := M.Run(cfg, Abs(), 1 - w, left - 1); whole == r.(steps := r.steps + 1)
    {
      hide Abs, ValidCells, Valid, Semantics.Step;
      alive := Step(w);
    }

    /** Play until a warrior has no processes or `budget` instructions have run,
        two moves at a time. Returns the outcome and the instructions run. */
    method Battle(budget: nat, first: nat) returns (outcome: M.Outcome, executed: nat)
      requires Ready() && first < 2 && len[0] > 0 && len[1] > 0
      modifies this`head, this`len, core, qbuf, pspace, lastResult
      ensures Ready()
      ensures M.Played(Abs(), outcome, executed) == M.Run(cfg, old(Abs()), first, budget)
    {
      hide Abs, ValidCells, Valid, M.Run;
      ghost var whole := M.Run(cfg, Abs(), first, budget);
      ghost var rest := whole;
      var steps: nat := budget;
      if first == 1 {
        if steps == 0 {
          M.OutOfBudget(cfg, Abs(), 1);
          return M.Tie, 0;
        }
        steps := steps - 1;
        var alive := Move(1, steps + 1, rest);
        if !alive {
          return M.Win(0), budget - steps;
        }
        rest := M.Run(cfg, Abs(), 0, steps);
      }
      while true
        invariant Ready() && len[0] > 0 && len[1] > 0 && steps <= budget
        invariant rest == M.Run(cfg, Abs(), 0, steps) && whole == rest.(steps := rest.steps + (budget - steps))
        decreases steps
      {
        if steps == 0 {
          M.OutOfBudget(cfg, Abs(), 0);
          return M.Tie, budget;
        }
        steps := steps - 1;
        var alive := Move(0, steps + 1, rest);
        if !alive {
          return M.Win(1), budget - steps;
        }
        rest := M.Run(cfg, Abs(), 1, steps);
        if steps == 0 {
          M.OutOfBudget(cfg, Abs(), 1);
          return M.Tie, budget;
        }
        steps := steps - 1;
        alive := Move(1, steps + 1, rest);
        if !alive {
          return M.Win(0), budget - steps;
        }
        rest := M.Run(cfg, Abs(), 0, steps);
      }
    }
  }
}
