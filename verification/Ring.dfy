/** The core is a ring: no instruction can tell where cell 0 is. A round loaded
    some cells further round the core is the same round, turned by as many
    cells (src/mars.rs:169-205, 225-593). */
module CoreRing {
  import Rng
  import opened Redcode
  import opened Configs
  import opened Semantics
  import opened MachineFacts
  import opened Match

  // ---- turning ----

  ghost predicate TurnedCore(cs: nat, d: nat, core: seq<Instruction>, core': seq<Instruction>)
    requires d < cs
  {
    && |core| == cs && |core'| == cs
    && forall i: nat :: i < cs ==> core'[Plus(cs, i, d)] == core[i]
  }

  ghost predicate TurnedList(cs: nat, d: nat, s: seq<nat>, s': seq<nat>)
    requires d < cs
  {
    && AllBelow(cs, s) && |s'| == |s|
    && forall k :: 0 <= k < |s| ==> s'[k] == Plus(cs, s[k], d)
  }

  /** `m'` is `m` with core and queues turned by `d` cells, P-space the same. */
  ghost predicate Turned(cfg: Config, d: nat, m: Machine, m': Machine)
    requires d < cfg.coreSize
  {
    && Valid(cfg, m) && Valid(cfg, m')
    && TurnedCore(cfg.coreSize, d, m.core, m'.core)
    && TurnedList(cfg.coreSize, d, m.queues[0], m'.queues[0])
    && TurnedList(cfg.coreSize, d, m.queues[1], m'.queues[1])
    && SamePspace(m, m')
  }

  ghost predicate TurnedOperand(cs: nat, d: nat, o: Operand, o': Operand)
    requires d < cs
  {
    && ValidOperand(cs, o) && ValidOperand(cs, o')
    && TurnedCore(cs, d, o.core, o'.core) && TurnedList(cs, d, o.touched, o'.touched)
    && o'.ptr == o.ptr && o'.at == Plus(cs, o.at, d) && o'.num == o.num
  }

  /** Turning an address commutes with moving from it. */
  lemma PlusTurns(cs: nat, d: nat, x: nat, y: nat)
    requires d < cs && x < cs && y < cs
    ensures Plus(cs, Plus(cs, x, d), y) == Plus(cs, Plus(cs, x, y), d)
  {
  }

  lemma SkipTurns(cs: nat, d: nat, pc: nat)
    requires d < cs && pc < cs && cs >= 2
    ensures Skip(cs, Plus(cs, pc, d)) == Plus(cs, Skip(cs, pc), d)
  {
  }

  lemma UpdateTurns(cs: nat, d: nat, core: seq<Instruction>, core': seq<Instruction>, p: nat, v: Instruction)
    requires d < cs && p < cs && TurnedCore(cs, d, core, core')
    ensures TurnedCore(cs, d, core[p := v], core'[Plus(cs, p, d) := v])
  {
  }

  // ---- one instruction ----

  lemma EvaluateTurns(cs: nat, d: nat, core: seq<Instruction>, core': seq<Instruction>, pc: nat, ir: Instruction,
                      mode: Mode, field: nat)
    requires ValidCore(cs, core) && ValidCore(cs, core') && d < cs && TurnedCore(cs, d, core, core')
    requires pc < cs && Normalised(cs, ir) && field < cs
    ensures TurnedOperand(cs, d, Evaluate(cs, core, pc, ir, mode, field),
                          Evaluate(cs, core', Plus(cs, pc, d), ir, mode, field))
  {
    PlusTurns(cs, d, pc, field);
    var p, p' := Plus(cs, pc, field), Plus(cs, Plus(cs, pc, d), field);
    if !mode.Immediate? && !mode.Direct? {
      UpdateTurns(cs, d, core, core', p, Put(core[p], Via(mode), Dec(cs, Get(core[p], Via(mode)))));
      var before, before' := Predecrement(cs, core, p, mode), Predecrement(cs, core', p', mode);
      assert TurnedCore(cs, d, before, before');
      var ptr := Plus(cs, field, Get(before[p], Via(mode)));
      PlusTurns(cs, d, pc, ptr);
      UpdateTurns(cs, d, before, before', p, Put(before[p], Via(mode), Inc(cs, Get(before[p], Via(mode)))));
    }
  }

  lemma ListsTurn(cs: nat, d: nat, p: nat, q: nat)
    requires d < cs && p < cs && q < cs
    ensures TurnedList(cs, d, [], []) && TurnedList(cs, d, [p], [Plus(cs, p, d)])
    ensures TurnedList(cs, d, [p, q], [Plus(cs, p, d), Plus(cs, q, d)])
  {
  }

  /** What is queued next is turned. */
  lemma NextTurns(cfg: Config, d: nat, m: Machine, m': Machine, w: nat, pc: nat, ir: Instruction,
                  x: Operand, y: Operand, x': Operand, y': Operand, room: bool)
    requires d < cfg.coreSize && Turned(cfg, d, m, m') && w < 2 && pc < cfg.coreSize
    requires TurnedOperand(cfg.coreSize, d, x, x') && TurnedOperand(cfg.coreSize, d, y, y')
    ensures var e, e' := Execute(cfg, m, w, pc, ir, x, y, room),
              Execute(cfg, m', w, Plus(cfg.coreSize, pc, d), ir, x', y', room);
            TurnedList(cfg.coreSize, d, e.next, e'.next) && e'.wrote == e.wrote
  {
    hide Combine, Divide, Decrement, Less, NumbersEqual, AllZero, GetPspace, SetPspace, Write, Select, Skip, Plus,
        Valid,
      TurnedCore, TurnedList, SamePspace, AllBelow;
    var cs := cfg.coreSize;
    CellsTurn(cfg, d, m, m', x.at);
    CellsTurn(cfg, d, m, m', y.at);
    var next, jump := Plus(cs, pc, 1), Plus(cs, pc, x.ptr);
    ListsTurn(cs, d, next, jump);
    ListsTurn(cs, d, jump, next);
    ListsTurn(cs, d, Skip(cs, pc), next);
    PlusTurns(cs, d, pc, 1);
    PlusTurns(cs, d, pc, x.ptr);
    SkipTurns(cs, d, pc);
  }

  /** The cell written, and P-space. */
  lemma MemoryTurns(cfg: Config, d: nat, m: Machine, m': Machine, w: nat, pc: nat, ir: Instruction,
                    x: Operand, y: Operand, x': Operand, y': Operand, room: bool)
    requires d < cfg.coreSize && Turned(cfg, d, m, m') && w < 2 && pc < cfg.coreSize
    requires TurnedOperand(cfg.coreSize, d, x, x') && TurnedOperand(cfg.coreSize, d, y, y')
    ensures var e, e' := Execute(cfg, m, w, pc, ir, x, y, room),
              Execute(cfg, m', w, Plus(cfg.coreSize, pc, d), ir, x', y', room);
            TurnedCore(cfg.coreSize, d, e.m.core, e'.m.core) && SamePspace(e.m, e'.m)
  {
    hide Combine, Divide, Decrement, Less, NumbersEqual, AllZero, GetPspace, SetPspace, Skip, Plus, Valid, TurnedCore;
    hide Select, Equal;
    var cs := cfg.coreSize;
    CellsTurn(cfg, d, m, m', x.at);
    CellsTurn(cfg, d, m, m', y.at);
    forall v: Instruction
      ensures TurnedCore(cs, d, Write(m, y.at, v).core, Write(m', y'.at, v).core)
    {
      UpdateTurns(cs, d, m.core, m'.core, y.at, v);
    }
    if ir.op.Ldp? {
      PspaceAlike(cfg, m, m', w, Num(x.num, SelectOne(ir.modifier).src));
    } else if ir.op.Stp? {
      StoreAlike(cfg, m, m', w, Num(y.num, SelectOne(ir.modifier).dst), Num(x.num, SelectOne(ir.modifier).src));
    }
  }

  lemma CellsTurn(cfg: Config, d: nat, m: Machine, m': Machine, p: nat)
    requires d < cfg.coreSize && Turned(cfg, d, m, m') && p < cfg.coreSize
    ensures cfg.coreSize >= 2 && |m.core| == cfg.coreSize && |m'.core| == cfg.coreSize
    ensures m'.core[Plus(cfg.coreSize, p, d)] == m.core[p]
  {
  }

  lemma StoreAlike(cfg: Config, m: Machine, m': Machine, w: nat, idx: nat, v: nat)
    requires Valid(cfg, m) && Valid(cfg, m') && SamePspace(m, m') && w < 2 && v < cfg.coreSize
    ensures SamePspace(SetPspace(cfg, m, w, idx, v), SetPspace(cfg, m', w, idx, v))
  {
  }

  lemma PspaceAlike(cfg: Config, m: Machine, m': Machine, w: nat, idx: nat)
    requires Valid(cfg, m) && Valid(cfg, m') && SamePspace(m, m') && w < 2
    ensures GetPspace(cfg, m, w, idx) == GetPspace(cfg, m', w, idx)
  {
  }

  lemma PoppedTurns(cfg: Config, d: nat, m: Machine, m': Machine, w: nat, core: seq<Instruction>,
                    core': seq<Instruction>)
    requires d < cfg.coreSize && Turned(cfg, d, m, m') && w < 2 && m.queues[w] != []
    requires ValidCore(cfg.coreSize, core) && ValidCore(cfg.coreSize, core') && TurnedCore(cfg.coreSize, d, core, core')
    ensures var rest: seq<nat>, rest': seq<nat> := m.queues[w][1..], m'.queues[w][1..];
            Turned(cfg, d, m.(core := core, queues := m.queues[w := rest]),
                m'.(core := core', queues := m'.queues[w := rest']))
  {
    hide ValidCore, TurnedCore, Plus;
  }

  lemma HeadTurns(cfg: Config, d: nat, m: Machine, m': Machine, w: nat)
    requires d < cfg.coreSize && Turned(cfg, d, m, m') && w < 2
    ensures |m.queues| == 2 && |m'.queues| == 2 && |m'.queues[w]| == |m.queues[w]|
    ensures m.queues[w] != [] ==>
              var pc, pc' := m.queues[w][0], m'.queues[w][0];
              && pc < cfg.coreSize && pc' == Plus(cfg.coreSize, pc, d)
              && |m.core| == cfg.coreSize && |m'.core| == cfg.coreSize && m'.core[pc'] == m.core[pc]
              && ValidCore(cfg.coreSize, m.core) && ValidCore(cfg.coreSize, m'.core)
              && Normalised(cfg.coreSize, m.core[pc])
  {
  }

  lemma PushedTurns(cs: nat, d: nat, q: seq<nat>, q': seq<nat>, next: seq<nat>, next': seq<nat>)
    requires d < cs && TurnedList(cs, d, q, q') && TurnedList(cs, d, next, next')
    ensures TurnedList(cs, d, q + next, q' + next')
  {
    hide Plus;
  }

  /** One step from turned machines: turned machines, the same warriors alive,
      turned reports. */
  lemma StepTurns(cfg: Config, d: nat, m: Machine, m': Machine, w: nat)
    requires d < cfg.coreSize && Turned(cfg, d, m, m') && w < 2
    ensures var s, s' := Step(cfg, m, w), Step(cfg, m', w);
            && Turned(cfg, d, s.m, s'.m) && s'.alive == s.alive
            && TurnedList(cfg.coreSize, d, s.written, s'.written)
  {
    hide Execute, Evaluate, Valid, TurnedCore, TurnedList, Plus, ValidCore, AllBelow;
    HeadTurns(cfg, d, m, m', w);
    StepKeepsValid(cfg, m, w);
    StepKeepsValid(cfg, m', w);
    if m.queues[w] != [] {
      var cs := cfg.coreSize;
      var pc, pc' := m.queues[w][0], m'.queues[w][0];
      var rest: seq<nat>, rest': seq<nat> := m.queues[w][1..], m'.queues[w][1..];
      var ir := m.core[pc];
      EvaluateTurns(cs, d, m.core, m'.core, pc, ir, ir.aMode, ir.a);
      var x, x' := Evaluate(cs, m.core, pc, ir, ir.aMode, ir.a), Evaluate(cs, m'.core, pc', ir, ir.aMode, ir.a);
      EvaluateTurns(cs, d, x.core, x'.core, pc, ir, ir.bMode, ir.b);
      var y, y' := Evaluate(cs, x.core, pc, ir, ir.bMode, ir.b), Evaluate(cs, x'.core, pc', ir, ir.bMode, ir.b);
      var popped := m.(core := y.core, queues := m.queues[w := rest]);
      var popped' := m'.(core := y'.core, queues := m'.queues[w := rest']);
      var room := |rest| + 1 < cfg.maxProcesses;
      PoppedTurns(cfg, d, m, m', w, y.core, y'.core);
      NextTurns(cfg, d, popped, popped', w, pc, ir, x, y, x', y', room);
      MemoryTurns(cfg, d, popped, popped', w, pc, ir, x, y, x', y', room);
      ExecuteKeepsValid(cfg, popped, w, pc, ir, x, y, room);
      ExecuteKeepsValid(cfg, popped', w, pc', ir, x', y', room);
      ListsTurn(cs, d, y.at, y.at);
      PushedTurns(cs, d, x.touched, x'.touched, y.touched, y'.touched);
      PushedTurns(cs, d, x.touched + y.touched, x'.touched + y'.touched, [], []);
      PushedTurns(cs, d, x.touched + y.touched, x'.touched + y'.touched, [y.at], [y'.at]);
      PushedTurns(cs, d, rest, rest', Execute(cfg, popped, w, pc, ir, x, y, room).next,
          Execute(cfg, popped', w, pc', ir, x', y', room).next);
      HeadTurns(cfg, d, Step(cfg, m, w).m, Step(cfg, m', w).m, w);
    }
  }

  // ---- rounds ----

  lemma {:induction false} RunTurns(cfg: Config, d: nat, m: Machine, m': Machine, w: nat, budget: nat)
    requires d < cfg.coreSize && Turned(cfg, d, m, m') && w < 2
    ensures var p, p' := Run(cfg, m, w, budget), Run(cfg, m', w, budget);
            Turned(cfg, d, p.m, p'.m) && p'.outcome == p.outcome && p'.steps == p.steps
    decreases budget
  {
    hide Step, Valid, TurnedCore, TurnedList;
    if budget > 0 {
      StepTurns(cfg, d, m, m', w);
      var s, s' := Step(cfg, m, w), Step(cfg, m', w);
      if s.alive {
        RunTurns(cfg, d, s.m, s'.m, 1 - w, budget - 1);
      }
    }
  }

  lemma {:induction false} LoadCodeTurns(cs: nat, d: nat, core: seq<Instruction>, core': seq<Instruction>, pos: nat,
                                         code: seq<Instruction>, k: nat)
    requires d < cs && ValidCore(cs, core) && ValidCore(cs, core') && TurnedCore(cs, d, core, core')
    requires pos < cs && NormalisedCode(cs, code) && k <= |code|
    ensures TurnedCore(cs, d, LoadCode(cs, core, pos, code, k), LoadCode(cs, core', Plus(cs, pos, d), code, k))
    decreases k
  {
    hide TurnedCore;
    if k > 0 {
      LoadCodeTurns(cs, d, core, core', pos, code, k - 1);
      PlusTurns(cs, d, pos, (k - 1) % cs);
      UpdateTurns(cs, d, LoadCode(cs, core, pos, code, k - 1), LoadCode(cs, core', Plus(cs, pos, d), code, k - 1),
                  Plus(cs, pos, (k - 1) % cs), code[k - 1]);
    }
  }

  lemma EmptyTurns(cs: nat, d: nat)
    requires d < cs
    ensures TurnedCore(cs, d, EmptyCore(cs), EmptyCore(cs))
  {
  }

  lemma LoadTurns(cfg: Config, d: nat, m: Machine, m': Machine, a: Warrior, b: Warrior, posA: nat, posB: nat)
    requires Players(cfg, a, b) && ValidPspace(cfg, m) && SamePspace(m, m')
    requires d < cfg.coreSize && posA < cfg.coreSize && posB < cfg.coreSize
    ensures ValidPspace(cfg, m')
    ensures Turned(cfg, d, Load(cfg, m, a, b, posA, posB),
                   Load(cfg, m', a, b, Plus(cfg.coreSize, posA, d), Plus(cfg.coreSize, posB, d)))
  {
    hide ValidCore, LoadCode, EmptyCore, TurnedCore, Plus;
    var cs := cfg.coreSize;
    EmptyTurns(cs, d);
    LoadCodeTurns(cs, d, EmptyCore(cs), EmptyCore(cs), posA, a.code, |a.code|);
    LoadCodeTurns(cs, d, LoadCode(cs, EmptyCore(cs), posA, a.code, |a.code|),
                  LoadCode(cs, EmptyCore(cs), Plus(cs, posA, d), a.code, |a.code|), posB, b.code, |b.code|);
    PlusTurns(cs, d, posA, a.start);
    PlusTurns(cs, d, posB, b.start);
  }

  /** Loading both warriors `d` cells further on: the same outcome after as many
      instructions, the same P-space, and the final core and process queues
      turned by `d`. */
  lemma RoundTurns(cfg: Config, d: nat, m: Machine, m': Machine, a: Warrior, b: Warrior, posA: nat, posB: nat,
                   first: nat)
    requires Players(cfg, a, b) && ValidPspace(cfg, m) && SamePspace(m, m')
    requires d < cfg.coreSize && posA < cfg.coreSize && posB < cfg.coreSize && first < 2
    ensures ValidPspace(cfg, m')
    ensures var p := Round(cfg, m, a, b, posA, posB, first);
            var p' := Round(cfg, m', a, b, Plus(cfg.coreSize, posA, d), Plus(cfg.coreSize, posB, d), first);
            Turned(cfg, d, p.m, p'.m) && p'.outcome == p.outcome && p'.steps == p.steps
  {
    hide Run, Load, TurnedCore, TurnedList, Valid;
    LoadTurns(cfg, d, m, m', a, b, posA, posB);
    RunTurns(cfg, d, Load(cfg, m, a, b, posA, posB),
             Load(cfg, m', a, b, Plus(cfg.coreSize, posA, d), Plus(cfg.coreSize, posB, d)), first, cfg.maxCycles * 2);
  }

  /** Rounds `r` on, round k loaded `shift(k)` cells round the core from where
      the match puts it. */
  function ShiftedRounds(cfg: Config, m: Machine, a: Warrior, b: Warrior, r: nat, rounds: nat, seed: int, score: Score,
                         shift: nat -> nat): (res: MatchPlayed)
    requires Players(cfg, a, b) && ValidPspace(cfg, m) && Rng.Int32(seed) && r <= rounds
    decreases rounds - r
  {
    if r == rounds then MatchPlayed(m, score, 0)
    else
      var cs := cfg.coreSize;
      var d := shift(r) % cs;
      var p := Round(cfg, m, a, b, Plus(cs, 0, d), Plus(cs, Position(cfg, seed), d), r % 2);
      var res := ShiftedRounds(cfg, p.m, a, b, r + 1, rounds, Rng.Next(seed), Count(score, p.outcome), shift);
      res.(steps := res.steps + p.steps)
  }

  /** Where the core begins is nothing a match depends on: whatever shift each
      round is loaded at, score, instruction count and P-space are those of the
      match as played. */
  lemma {:induction false} MatchTurns(cfg: Config, m: Machine, m': Machine, a: Warrior, b: Warrior, r: nat, rounds: nat,
                                      seed: int,
                                      score: Score, shift: nat -> nat)
    requires Players(cfg, a, b) && ValidPspace(cfg, m) && ValidPspace(cfg, m') && SamePspace(m, m')
    requires Rng.Int32(seed) && r <= rounds
    ensures var p, p' := Rounds(cfg, m, a, b, r, rounds, seed, score),
              ShiftedRounds(cfg, m', a, b, r, rounds, seed, score, shift);
            p'.score == p.score && p'.steps == p.steps && SamePspace(p.m, p'.m)
    decreases rounds - r
  {
    hide Round, ValidCore, ValidQueues, ValidPspace, TurnedCore, TurnedList, SamePspace, Position;
    if r < rounds {
      var cs := cfg.coreSize;
      var d := shift(r) % cs;
      RoundTurns(cfg, d, m, m', a, b, 0, Position(cfg, seed), r % 2);
      var p := Round(cfg, m, a, b, 0, Position(cfg, seed), r % 2);
      var p' := Round(cfg, m', a, b, Plus(cs, 0, d), Plus(cs, Position(cfg, seed), d), r % 2);
      MatchTurns(cfg, p.m, p'.m, a, b, r + 1, rounds, Rng.Next(seed), Count(score, p.outcome), shift);
    }
  }
}
