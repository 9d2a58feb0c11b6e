/** The two engines' operand code on any numbers, in range or not, and what it
    makes of the one accepted core whose P-space can hold a number that is not
    below the core size. The engines differ there only in how they increment:
    src/mars.rs:169-190 folds, src/fast.rs:292-303 compares with the core size. */
module TwoCells {
  import Rng
  import opened Redcode
  import opened Configs
  import opened Semantics
  import opened MachineFacts
  import M = Match
  import Placement

  datatype Side = Plain | Fast

  /** One subtraction, whatever the number. */
  function Fold(cs: nat, x: nat): nat {
    if x >= cs then x - cs else x
  }

  function IncrementOn(side: Side, cs: nat, x: nat): nat {
    if side.Plain? then Fold(cs, x + 1) else if x + 1 == cs then 0 else x + 1
  }

  /** The increments agree exactly on the numbers below the core size. */
  lemma IncrementsAgreeIff(cs: nat, x: nat)
    requires cs >= 1
    ensures IncrementOn(Plain, cs, x) == IncrementOn(Fast, cs, x) <==> x < cs
    ensures x < cs ==> IncrementOn(Plain, cs, x) == Inc(cs, x)
  {
  }

  /** Both engines count down alike, on any number. */
  function Lower(cs: nat, x: nat): nat
    requires cs >= 1
  {
    if x == 0 then cs - 1 else x - 1
  }

  // ---- operands ----

  function Before(cs: nat, core: seq<Instruction>, p: nat, mode: Mode): (r: seq<Instruction>)
    requires |core| == cs && p < cs
    ensures |r| == cs
  {
    if mode.APredec? || mode.BPredec? then Touch(core, p, Via(mode), Lower(cs, Get(core[p], Via(mode)))) else core
  }

  function After(side: Side, cs: nat, core: seq<Instruction>, p: nat, mode: Mode): (r: seq<Instruction>)
    requires |core| == cs && p < cs
    ensures |r| == cs
  {
    if mode.APostinc? || mode.BPostinc? then Touch(core, p, Via(mode),
        IncrementOn(side, cs, Get(core[p], Via(mode)))) else core
  }

  /** An operand, or nothing when an index is not below the core size. */
  function EvaluateOn(side: Side, cs: nat, core: seq<Instruction>, pc: nat, ir: Instruction, mode: Mode,
                      field: nat): (o: Option<Operand>)
    requires |core| == cs && pc < cs
    ensures o.Some? ==> |o.value.core| == cs && o.value.at < cs
  {
    if mode.Immediate? then Some(Operand(core, [], 0, pc, NumbersOf(ir)))
    else if mode.Direct? then
      var at := Fold(cs, pc + field);
      if at >= cs then None else Some(Operand(core, [], field, at, NumbersOf(core[at])))
    else
      var p := Fold(cs, pc + field);
      if p >= cs then None
      else
        var before := Before(cs, core, p, mode);
        var ptr := Fold(cs, field + Get(before[p], Via(mode)));
        var at := Fold(cs, pc + ptr);
        if at >= cs then None
        else
          Some(Operand(After(side, cs, before, p, mode), if mode.AIndirect? || mode.BIndirect? then [] else [p], ptr,
              at, NumbersOf(before[at])))
  }

  lemma EffectsAre(side: Side, cs: nat, core: seq<Instruction>, p: nat, mode: Mode)
    requires ValidCore(cs, core) && p < cs
    ensures Before(cs, core, p, mode) == Predecrement(cs, core, p, mode)
    ensures After(side, cs, core, p, mode) == Postincrement(cs, core, p, mode)
    ensures Get(core[p], Via(mode)) < cs
  {
    assert Normalised(cs, core[p]);
  }

  /** On a core in range both sides are the specification, which
      `MarsEngine.Mars.Operand` and `FastEngine.Run.Operand` compute. */
  lemma EvaluateOnIs(side: Side, cs: nat, core: seq<Instruction>, pc: nat, ir: Instruction, mode: Mode, field: nat)
    requires ValidCore(cs, core) && pc < cs && Normalised(cs, ir) && field < cs
    ensures EvaluateOn(side, cs, core, pc, ir, mode, field) == Some(Evaluate(cs, core, pc, ir, mode, field))
  {
    hide Before, After, Predecrement, Postincrement, Touch, Get, ValidCore;
    if !mode.Immediate? && !mode.Direct? {
      var p := Plus(cs, pc, field);
      EffectsAre(side, cs, core, p, mode);
      EffectsAre(side, cs, Predecrement(cs, core, p, mode), p, mode);
    }
  }

  // ---- whole matches ----

  /** Indices that need no number of a cell: program counters, banks. */
  predicate Shaped(cfg: Config, m: Machine) {
    && cfg.coreSize >= 2 && |m.core| == cfg.coreSize && |m.bank| == 2 && |m.last| == 2
    && |m.queues| == 2 && AllBelow(cfg.coreSize, m.queues[0]) && AllBelow(cfg.coreSize, m.queues[1])
    && AllBelow(|m.pspace|, m.bank) && forall b :: 0 <= b < |m.pspace| ==> |m.pspace[b]| == cfg.PspaceSize()
  }

  /** A step goes on, with whether the warrior is alive; or leaves the core; or
      is one that is not modelled: an opcode other than NOP and LDP on a machine
      that is not well-formed. */
  datatype Stepping = Going(m: Machine, alive: bool) | Outside | Beyond

  function Read(cfg: Config, m: Machine, w: nat, idx: nat): nat
    requires Shaped(cfg, m) && w < 2
  {
    var i := idx % cfg.PspaceSize();
    if i == 0 then m.last[w] else m.pspace[m.bank[w]][i]
  }

  /** Both operands of the instruction at `pc`, as a step evaluates them. */
  function OperandsOn(side: Side, cs: nat, core: seq<Instruction>, pc: nat): (o: Option<(Operand, Operand)>)
    requires |core| == cs && pc < cs
    ensures o.Some? ==> |o.value.1.core| == cs && o.value.1.at < cs
  {
    var ir := core[pc];
    var x := EvaluateOn(side, cs, core, pc, ir, ir.aMode, ir.a);
    if x.None? then None
    else
      var y := EvaluateOn(side, cs, x.value.core, pc, ir, ir.bMode, ir.b);
      if y.None? then None else Some((x.value, y.value))
  }

  /** A well-formed machine moves as the specification, which both engines
      compute; on any other the step is the engine's code for NOP and LDP. */
  function StepOn(side: Side, cfg: Config, m: Machine, w: nat): (r: Stepping)
    requires Shaped(cfg, m) && w < 2
    ensures r.Going? ==> Shaped(cfg, r.m) && r.m.bank == m.bank && |r.m.pspace| == |m.pspace|
  {
    if m.queues[w] == [] then Going(m, false)
    else
      var pc := m.queues[w][0];
      var o := OperandsOn(side, cfg.coreSize, m.core, pc);
      if o.None? then Outside
      else if Valid(cfg, m) then
        var s := Step(cfg, m, w);
        StepKeepsValid(cfg, m, w);
        Going(s.m, s.alive)
      else Quiet(cfg, m, w, pc, o.value.0, o.value.1)
  }

  function Quiet(cfg: Config, m: Machine, w: nat, pc: nat, x: Operand, y: Operand): (r: Stepping)
    requires Shaped(cfg, m) && w < 2 && m.queues[w] != [] && pc < cfg.coreSize
    requires |y.core| == cfg.coreSize && y.at < cfg.coreSize
    ensures r.Going? ==> Shaped(cfg, r.m) && r.m.bank == m.bank && |r.m.pspace| == |m.pspace|
  {
    var ir := m.core[pc];
    var queue: seq<nat> := m.queues[w][1..] + [Fold(cfg.coreSize, pc + 1)];
    var queues := m.queues[w := queue];
    if ir.op.Nop? then Going(m.(core := y.core, queues := queues), true)
    else if ir.op.Ldp? then
      var one := SelectOne(ir.modifier);
      var v := Read(cfg, m, w, Num(x.num, one.src));
      Going(m.(core := y.core[y.at := Put(y.core[y.at], one.dst, v)], queues := queues), true)
    else Beyond
  }

  datatype Running = Ended(m: Machine, outcome: M.Outcome, steps: nat) | Left | Unknown

  function RunOn(side: Side, cfg: Config, m: Machine, w: nat, budget: nat): (r: Running)
    requires Shaped(cfg, m) && w < 2
    ensures r.Ended? ==> Shaped(cfg, r.m) && (r.outcome.Win? ==> r.outcome.w < 2)
    decreases budget
  {
    if budget == 0 then Ended(m, M.Tie, 0)
    else
      match StepOn(side, cfg, m, w)
      case Outside => Left
      case Beyond => Unknown
      case Going(after, alive) =>
        if !alive then Ended(after, M.Win(1 - w), 1)
        else
          match RunOn(side, cfg, after, 1 - w, budget - 1)
          case Ended(end, outcome, steps) => Ended(end, outcome, steps + 1)
          case r => r
  }

  function LoadOn(cfg: Config, m: Machine, a: Warrior, b: Warrior, pos: nat): (r: Machine)
    requires Shaped(cfg, m) && NormalisedWarrior(cfg.coreSize, a) && NormalisedWarrior(cfg.coreSize, b)
    requires pos < cfg.coreSize
    ensures Shaped(cfg, r)
  {
    var cs := cfg.coreSize;
    var one := M.LoadCode(cs, M.EmptyCore(cs), 0, a.code, |a.code|);
    m.(core := M.LoadCode(cs, one, pos, b.code, |b.code|), queues := [[Plus(cs, 0, a.start)], [Plus(cs, pos, b.start)]])
  }

  datatype Matching = Whole(played: M.MatchPlayed) | LeftCore | NotModelled

  function RoundsOn(side: Side, cfg: Config, m: Machine, a: Warrior, b: Warrior, r: nat, rounds: nat, seed: int,
                    score: M.Score): (res: Matching)
    requires cfg.Check(2) == Accepted && Shaped(cfg, m) && Rng.Int32(seed) && r <= rounds
    requires NormalisedWarrior(cfg.coreSize, a) && NormalisedWarrior(cfg.coreSize, b)
    decreases rounds - r
  {
    if r == rounds then Whole(M.MatchPlayed(m, score, 0))
    else
      match RunOn(side, cfg, LoadOn(cfg, m, a, b, M.Position(cfg, seed)), r % 2, cfg.maxCycles * 2)
      case Left => LeftCore
      case Unknown => NotModelled
      case Ended(end, outcome, steps) =>
        match RoundsOn(side, cfg, M.Finish(end, outcome), a, b, r + 1, rounds, Rng.Next(seed), M.Count(score, outcome))
        case Whole(p) => Whole(p.(steps := p.steps + steps))
        case res => res
  }

  /** A match on a new engine. */
  function MatchOn(side: Side, cfg: Config, a: Warrior, b: Warrior, rounds: nat, seed: int): Matching
    requires cfg.Check(2) == Accepted && Rng.Int32(seed)
    requires NormalisedWarrior(cfg.coreSize, a) && NormalisedWarrior(cfg.coreSize, b)
  {
    RoundsOn(side, cfg, M.BeginMatch(cfg, M.Blank(cfg), a, b), a, b, 0, rounds, seed, M.NOSCORE)
  }

  // ---- three cells and more ----

  lemma ValidIsShaped(cfg: Config, m: Machine)
    requires Valid(cfg, m)
    ensures Shaped(cfg, m) && ValidPspace(cfg, m)
  {
  }

  lemma StepOnIs(side: Side, cfg: Config, m: Machine, w: nat)
    requires Valid(cfg, m) && w < 2
    ensures Shaped(cfg, m) && var s := Step(cfg, m, w); StepOn(side, cfg, m, w) == Going(s.m, s.alive)
  {
    hide EvaluateOn, Evaluate, Execute, Performed;
    if m.queues[w] != [] {
      var cs, pc := cfg.coreSize, m.queues[w][0];
      var ir := m.core[pc];
      EvaluateOnIs(side, cs, m.core, pc, ir, ir.aMode, ir.a);
      EvaluateOnIs(side, cs, Evaluate(cs, m.core, pc, ir, ir.aMode, ir.a).core, pc, ir, ir.bMode, ir.b);
    }
  }

  lemma {:induction false} RunOnIs(side: Side, cfg: Config, m: Machine, w: nat, budget: nat)
    requires Valid(cfg, m) && w < 2
    ensures Shaped(cfg, m) && var p := M.Run(cfg, m, w, budget);
                              RunOn(side, cfg, m, w, budget) == Ended(p.m, p.outcome, p.steps)
    decreases budget
  {
    hide StepOn, Step, Valid, Shaped;
    if budget > 0 {
      StepOnIs(side, cfg, m, w);
      StepKeepsValid(cfg, m, w);
      RunOnIs(side, cfg, Step(cfg, m, w).m, 1 - w, budget - 1);
    } else {
      StepOnIs(side, cfg, m, w);
    }
  }

  lemma {:induction false} RoundsOnIs(side: Side, cfg: Config, m: Machine, a: Warrior, b: Warrior, r: nat, rounds: nat,
                                      seed: int, score: M.Score)
    requires cfg.Check(2) == Accepted && M.Players(cfg, a, b) && ValidPspace(cfg, m) && Shaped(cfg, m)
    requires Rng.Int32(seed) && r <= rounds
    ensures RoundsOn(side, cfg, m, a, b, r, rounds, seed,
              score) == Whole(M.Rounds(cfg, m, a, b, r, rounds, seed, score))
    decreases rounds - r
  {
    hide M.Run, RunOn, M.LoadCode, Valid, M.Position, Rng.Next;
    if r < rounds {
      var pos := M.Position(cfg, seed);
      RunOnIs(side, cfg, M.Load(cfg, m, a, b, 0, pos), r % 2, cfg.maxCycles * 2);
      var p := M.Round(cfg, m, a, b, 0, pos, r % 2);
      ValidIsShaped(cfg, p.m);
      RoundsOnIs(side, cfg, p.m, a, b, r + 1, rounds, Rng.Next(seed), M.Count(score, p.outcome));
    }
  }

  lemma NewIsShaped(cfg: Config, a: Warrior, b: Warrior)
    requires cfg.coreSize >= 2
    ensures var m := M.BeginMatch(cfg, M.Blank(cfg), a, b); ValidPspace(cfg, m) && Shaped(cfg, m)
  {
  }

  /** From three cells on, both engines' code plays the specification's match. */
  lemma MatchOnIs(side: Side, cfg: Config, a: Warrior, b: Warrior, rounds: nat, seed: int)
    requires cfg.Check(2) == Accepted && cfg.coreSize >= 3 && Rng.Int32(seed)
    requires NormalisedWarrior(cfg.coreSize, a) && NormalisedWarrior(cfg.coreSize, b)
    ensures MatchOn(side, cfg, a, b, rounds, seed) == Whole(M.Play(cfg, M.Blank(cfg), a, b, rounds, seed))
  {
    hide M.Rounds, RoundsOn;
    NewIsShaped(cfg, a, b);
    RoundsOnIs(side, cfg, M.BeginMatch(cfg, M.Blank(cfg), a, b), a, b, 0, rounds, seed, M.NOSCORE);
  }

  // ---- two cells ----

  /** Loads P-space cell 0 into the other cell's B number. */
  const LOADS := Instruction(Ldp, MAB, Immediate, 0, Direct, 1)

  /** Increments its own B number, then goes by it. */
  const WALKS := Instruction(Nop, MF, BPostinc, 0, BIndirect, 0)

  const LOADER := Warrior([LOADS], 0, None)

  const WALKER := Warrior([WALKS], 0, None)

  /** The two on the core of two cells, the second's B number now `k` and the
      last result `v`. */
  predicate Pair(cfg: Config, m: Machine, k: nat, v: nat) {
    && Shaped(cfg, m) && cfg.coreSize == 2 && m.core == [LOADS, WALKS.(b := k)]
    && |m.queues[0]| == 1 && |m.queues[1]| == 1 && m.last == [v, v]
  }

  lemma LoadsOn(side: Side, k: nat)
    ensures var o := OperandsOn(side, 2, [LOADS, WALKS.(b := k)], 0);
            o.Some? && o.value.0.num.a == 0 && o.value.1.at == 1 && o.value.1.core == [LOADS, WALKS.(b := k)]
  {
  }

  lemma WalksOn(side: Side, k: nat)
    requires k <= 2
    ensures var o := OperandsOn(side, 2, [LOADS, WALKS.(b := k)], 1);
            if side.Fast? && k == 2 then o.None?
            else o.Some? && o.value.1.core == [LOADS, WALKS.(b := if k == 1 then 0 else 1)]
  {
    assert WALKS.(b := k).b == k;
  }

  function Other(queues: seq<seq<nat>>, w: nat, to: nat): seq<seq<nat>>
    requires |queues| == 2 && w < 2
  {
    queues[w := [to]]
  }

  lemma PairLoads(side: Side, cfg: Config, m: Machine, w: nat, k: nat, v: nat)
    requires Pair(cfg, m, k, v) && k <= 2 && v <= 2 && w < 2 && m.queues[w][0] == 0
    ensures var next := m.(core := [LOADS, WALKS.(b := v)], queues := Other(m.queues, w, 1));
            StepOn(side, cfg, m, w) == Going(next, true) && Pair(cfg, next, v, v)
  {
    hide OperandsOn, Step;
    LoadsOn(side, k);
    if Valid(cfg, m) {
      PairLoadsValid(cfg, m, w, k, v);
    }
    assert [LOADS, WALKS.(b := k)][1 := Put(WALKS.(b := k), FB, v)] == [LOADS, WALKS.(b := v)];
    assert m.queues[w][1..] + [1] == [1];
  }

  lemma PairLoadsValid(cfg: Config, m: Machine, w: nat, k: nat, v: nat)
    requires Pair(cfg, m, k, v) && Valid(cfg, m) && w < 2 && m.queues[w][0] == 0
    ensures var s := Step(cfg, m, w);
            s.alive && s.m == m.(core := [LOADS, WALKS.(b := v)], queues := Other(m.queues, w, 1))
  {
    assert m.core[0] == LOADS;
    assert m.queues[w][1..] + [1] == [1];
    assert m.core[1 := Put(m.core[1], FB, v)] == [LOADS, WALKS.(b := v)];
  }

  lemma PairWalks(side: Side, cfg: Config, m: Machine, w: nat, k: nat, v: nat)
    requires Pair(cfg, m, k, v) && k <= 2 && v <= 2 && w < 2 && m.queues[w][0] == 1
    ensures var j := if k == 1 then 0 else 1;
            var next := m.(core := [LOADS, WALKS.(b := j)], queues := Other(m.queues, w, 0));
            if side.Fast? && k == 2 then StepOn(side, cfg, m, w) == Outside
            else StepOn(side, cfg, m, w) == Going(next, true) && Pair(cfg, next, j, v)
  {
    hide OperandsOn, Step;
    WalksOn(side, k);
    if Valid(cfg, m) && !(side.Fast? && k == 2) {
      PairWalksValid(cfg, m, w, k, v);
    }
    assert m.queues[w][1..] + [0] == [0];
  }

  lemma PairWalksValid(cfg: Config, m: Machine, w: nat, k: nat, v: nat)
    requires Pair(cfg, m, k, v) && Valid(cfg, m) && w < 2 && m.queues[w][0] == 1
    ensures var s := Step(cfg, m, w);
            s.alive && s.m == m.(core := [LOADS, WALKS.(b := if k == 1 then 0 else 1)], queues := Other(m.queues, w, 0))
  {
    assert m.core[1] == WALKS.(b := k) && k < 2;
    assert m.queues[w][1..] + [0] == [0];
  }

  /** Until a result out of range is read, and on the plain engine for good, the
      two go on for ever. */
  lemma {:induction false} PairTies(side: Side, cfg: Config, m: Machine, w: nat, k: nat, v: nat, budget: nat)
    requires Pair(cfg, m, k, v) && k <= 2 && v <= 2 && w < 2 && (side.Plain? || (k <= 1 && v <= 1))
    ensures var r := RunOn(side, cfg, m, w, budget); r.Ended? && r.outcome == M.Tie
    decreases budget
  {
    hide StepOn;
    if budget > 0 {
      assert m.queues[w][0] < 2;
      if m.queues[w][0] == 0 {
        PairLoads(side, cfg, m, w, k, v);
        PairTies(side, cfg, m.(core := [LOADS, WALKS.(b := v)], queues := Other(m.queues, w, 1)), 1 - w, v, v,
            budget - 1);
      } else {
        var j := if k == 1 then 0 else 1;
        PairWalks(side, cfg, m, w, k, v);
        PairTies(side, cfg, m.(core := [LOADS, WALKS.(b := j)], queues := Other(m.queues, w, 0)), 1 - w, j, v,
            budget - 1);
      }
    }
  }

  /** The machine as the pair is loaded. */
  predicate PairLoaded(cfg: Config, m: Machine, v: nat) {
    Pair(cfg, m, 0, v) && m.queues == [[0], [1]]
  }

  lemma LoadsPair(cfg: Config, m: Machine, seed: int, v: nat)
    requires cfg.Check(2) == Accepted && cfg.coreSize == 2 && Shaped(cfg, m) && m.last == [v, v]
    ensures NormalisedWarrior(2, LOADER) && NormalisedWarrior(2, WALKER)
    ensures M.Position(cfg, seed) == 1 && PairLoaded(cfg, LoadOn(cfg, m, LOADER, WALKER, M.Position(cfg, seed)), v)
  {
    assert cfg.minDistance == 1 && M.Positions(cfg) == 1 && seed % 1 == 0;
    var empty := M.EmptyCore(2);
    var one := M.LoadCode(2, empty, 0, [LOADS], 1);
    Placement.LoadStep(2, empty, 0, [LOADS], 1);
    Placement.LoadStep(2, empty, 0, [LOADS], 0);
    Placement.LoadStep(2, one, 1, [WALKS], 1);
    Placement.LoadStep(2, one, 1, [WALKS], 0);
    assert M.LoadCode(2, one, 1, [WALKS], 1) == [LOADS, WALKS];
    assert WALKS.(b := 0) == WALKS;
  }

  /** Opened by the loader, the third instruction of the round is the walk that
      leaves the core, at the latest. */
  lemma LoaderFirst(cfg: Config, m: Machine, budget: nat)
    requires PairLoaded(cfg, m, 2) && budget >= 2
    ensures RunOn(Fast, cfg, m, 0, budget) == Left
  {
    hide StepOn;
    PairLoads(Fast, cfg, m, 0, 0, 2);
    var m1 := m.(core := [LOADS, WALKS.(b := 2)], queues := Other(m.queues, 0, 1));
    PairWalks(Fast, cfg, m1, 1, 2, 2);
  }

  /** Opened by the walker, it is the fourth; a round of two instructions ends
      before it. */
  lemma WalkerFirst(cfg: Config, m: Machine, budget: nat)
    requires PairLoaded(cfg, m, 2) && budget >= 2 && budget % 2 == 0
    ensures var r := RunOn(Fast, cfg, m, 1, budget); if budget >= 4 then r == Left else r.Ended? && r.outcome == M.Tie
  {
    hide StepOn;
    PairWalks(Fast, cfg, m, 1, 0, 2);
    var m1 := m.(core := [LOADS, WALKS.(b := 1)], queues := Other(m.queues, 1, 0));
    PairLoads(Fast, cfg, m1, 0, 1, 2);
    var m2 := m1.(core := [LOADS, WALKS.(b := 2)], queues := Other(m1.queues, 0, 1));
    if budget >= 4 {
      PairLoads(Fast, cfg, m2, 1, 2, 2);
      var m3 := m2.(core := [LOADS, WALKS.(b := 2)], queues := Other(m2.queues, 1, 1));
      PairWalks(Fast, cfg, m3, 0, 2, 2);
      assert RunOn(Fast, cfg, m3, 0, budget - 3) == Left;
      assert RunOn(Fast, cfg, m2, 1, budget - 2) == Left;
      assert RunOn(Fast, cfg, m1, 0, budget - 1) == Left;
    } else {
      assert RunOn(Fast, cfg, m2, 1, 0) == Ended(m2, M.Tie, 0);
      assert RunOn(Fast, cfg, m1, 0, 1) == Ended(m2, M.Tie, 1);
    }
  }

  lemma {:induction false} PlainPlays(cfg: Config, m: Machine, v: nat, r: nat, rounds: nat, seed: int, score: M.Score)
    requires cfg.Check(2) == Accepted && cfg.coreSize == 2 && Shaped(cfg, m) && m.last == [v, v] && v <= 2
    requires Rng.Int32(seed) && r <= rounds && NormalisedWarrior(2, LOADER) && NormalisedWarrior(2, WALKER)
    ensures RoundsOn(Plain, cfg, m, LOADER, WALKER, r, rounds, seed, score).Whole?
    decreases rounds - r
  {
    hide RunOn, LoadOn, M.Position, Rng.Next, Pair;
    if r < rounds {
      LoadsPair(cfg, m, seed, v);
      var loaded := LoadOn(cfg, m, LOADER, WALKER, M.Position(cfg, seed));
      PairTies(Plain, cfg, loaded, r % 2, 0, v, cfg.maxCycles * 2);
      var end := RunOn(Plain, cfg, loaded, r % 2, cfg.maxCycles * 2);
      PlainPlays(cfg, M.Finish(end.m, M.Tie), 2, r + 1, rounds, Rng.Next(seed), M.Count(score, M.Tie));
    }
  }

  lemma FastLeaves(cfg: Config, m: Machine, seed: int)
    requires cfg.Check(2) == Accepted && cfg.coreSize == 2 && Shaped(cfg, m) && m.last == [1, 1]
    requires Rng.Int32(seed) && NormalisedWarrior(2, LOADER) && NormalisedWarrior(2, WALKER)
    ensures RoundsOn(Fast, cfg, m, LOADER, WALKER, 0, 3, seed, M.NOSCORE) == LeftCore
  {
    hide RunOn, LoadOn, M.Position, Rng.Next, Pair;
    var budget := cfg.maxCycles * 2;
    LoadsPair(cfg, m, seed, 1);
    var loaded := LoadOn(cfg, m, LOADER, WALKER, M.Position(cfg, seed));
    PairTies(Fast, cfg, loaded, 0, 0, 1, budget);
    var end := RunOn(Fast, cfg, loaded, 0, budget);
    var m1, seed1, score1 := M.Finish(end.m, M.Tie), Rng.Next(seed), M.Count(M.NOSCORE, M.Tie);
    LoadsPair(cfg, m1, seed1, 2);
    var loaded1 := LoadOn(cfg, m1, LOADER, WALKER, M.Position(cfg, seed1));
    WalkerFirst(cfg, loaded1, budget);
    if cfg.maxCycles == 1 {
      var end1 := RunOn(Fast, cfg, loaded1, 1, budget);
      var m2, seed2 := M.Finish(end1.m, M.Tie), Rng.Next(seed1);
      LoadsPair(cfg, m2, seed2, 2);
      LoaderFirst(cfg, LoadOn(cfg, m2, LOADER, WALKER, M.Position(cfg, seed2)), budget);
      assert RoundsOn(Fast, cfg, m2, LOADER, WALKER, 2, 3, seed2, M.Count(score1, M.Tie)) == LeftCore;
    }
    assert RoundsOn(Fast, cfg, m1, LOADER, WALKER, 1, 3, seed1, score1) == LeftCore;
  }

  /** On two cells, whatever the seed and the other limits, the third round of
      this match at the latest has the fast engine leave the core, and the plain
      one plays it. */
  lemma TwoCellsSplit(cfg: Config, seed: int)
    requires cfg.Check(2) == Accepted && cfg.coreSize == 2 && Rng.Int32(seed)
    ensures NormalisedWarrior(2, LOADER) && NormalisedWarrior(2, WALKER) && |LOADER.code| == |WALKER.code| == 1
    ensures MatchOn(Fast, cfg, LOADER, WALKER, 3, seed) == LeftCore
    ensures MatchOn(Plain, cfg, LOADER, WALKER, 3, seed).Whole?
  {
    hide RoundsOn;
    NewIsShaped(cfg, LOADER, WALKER);
    var m := M.BeginMatch(cfg, M.Blank(cfg), LOADER, WALKER);
    LoadsPair(cfg, m, seed, 1);
    FastLeaves(cfg, m, seed);
    PlainPlays(cfg, m, 1, 0, 3, seed, M.NOSCORE);
  }

  /** Two warriors and what else a match needs. */
  predicate Plays(cfg: Config, a: Warrior, b: Warrior, seed: int) {
    && NormalisedWarrior(cfg.coreSize, a) && NormalisedWarrior(cfg.coreSize, b) && Rng.Int32(seed)
    && |a.code| <= cfg.maxLength && |b.code| <= cfg.maxLength
  }

  /** No index of the fast engine ever leaves the core, in any match under an
      accepted configuration, exactly when the core has three cells or more. */
  lemma IndicesInRangeIff(cfg: Config)
    requires cfg.Check(2) == Accepted
    ensures cfg.coreSize >= 3 <==>
            forall a, b, rounds: nat, seed :: Plays(cfg, a, b, seed) ==>
                MatchOn(Fast, cfg, a, b, rounds, seed) != LeftCore
  {
    hide MatchOn;
    if cfg.coreSize >= 3 {
      forall a, b, rounds: nat, seed | Plays(cfg, a, b, seed)
        ensures MatchOn(Fast, cfg, a, b, rounds, seed) != LeftCore
      {
        MatchOnIs(Fast, cfg, a, b, rounds, seed);
      }
    } else {
      TwoCellsSplit(cfg, 0);
      assert Plays(cfg, LOADER, WALKER, 0);
    }
  }

  /** And exactly then the engines play every match alike. */
  lemma EnginesAgreeIff(cfg: Config)
    requires cfg.Check(2) == Accepted
    ensures cfg.coreSize >= 3 <==>
            forall a, b, rounds: nat, seed :: Plays(cfg, a, b, seed) ==>
              MatchOn(Fast, cfg, a, b, rounds, seed) == MatchOn(Plain, cfg, a, b, rounds, seed)
  {
    hide MatchOn;
    if cfg.coreSize >= 3 {
      forall a, b, rounds: nat, seed | Plays(cfg, a, b, seed)
        ensures MatchOn(Fast, cfg, a, b, rounds, seed) == MatchOn(Plain, cfg, a, b, rounds, seed)
      {
        MatchOnIs(Fast, cfg, a, b, rounds, seed);
        MatchOnIs(Plain, cfg, a, b, rounds, seed);
      }
    } else {
      TwoCellsSplit(cfg, 0);
      assert Plays(cfg, LOADER, WALKER, 0);
      assert MatchOn(Fast, cfg, LOADER, WALKER, 3, 0) != MatchOn(Plain, cfg, LOADER, WALKER, 3, 0);
    }
  }
}
