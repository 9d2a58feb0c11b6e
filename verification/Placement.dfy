/** Where warriors are loaded, and the one accepted core size on which a round
    does not keep P-space in range. */
module Placement {
  import Rng
  import opened Redcode
  import opened Configs
  import opened Semantics
  import opened MachineFacts
  import M = Match

  /** Warriors of at most maxLength instructions. */
  predicate Sized(cfg: Config, w: Warrior) {
    |w.code| <= cfg.maxLength
  }

  /** In every round of every match under an accepted configuration, for any
      seed: the two load addresses are at least minDistance apart both ways
      round the core, and the warriors lie in the core whole, unwrapped and
      disjoint, with empty cells everywhere else. */
  lemma LoadedApart(cfg: Config, m: Machine, a: Warrior, b: Warrior, seed: int, n: nat)
    requires cfg.Check(2) == Accepted && ValidPspace(cfg, m) && Rng.Int32(seed)
    requires NormalisedWarrior(cfg.coreSize, a) && NormalisedWarrior(cfg.coreSize, b) && Sized(cfg, a) && Sized(cfg, b)
    ensures var pos := M.Position(cfg, Rng.Drawn(seed, n));
            var core := M.Load(cfg, m, a, b, 0, pos).core;
            && cfg.minDistance <= pos && pos + cfg.minDistance <= cfg.coreSize
            && |a.code| <= pos && pos + |b.code| <= cfg.coreSize
            && forall i :: 0 <= i < cfg.coreSize ==>
                 core[i] == if i < |a.code| then a.code[i]
                            else if pos <= i < pos + |b.code| then b.code[i - pos]
                            else EMPTY
  {
    hide M.LoadCode, M.Position, Rng.Drawn, ValidPspace, NormalisedCode, M.EmptyCore;
    var pos := M.Position(cfg, Rng.Drawn(seed, n));
    var empty := M.EmptyCore(cfg.coreSize);
    var one := M.LoadCode(cfg.coreSize, empty, 0, a.code, |a.code|);
    var core := M.Load(cfg, m, a, b, 0, pos).core;
    assert core == M.LoadCode(cfg.coreSize, one, pos, b.code, |b.code|);
    CodeInPlace(cfg.coreSize, empty, 0, a.code, |a.code|);
    CodeInPlace(cfg.coreSize, one, pos, b.code, |b.code|);
    forall i | 0 <= i < cfg.coreSize
      ensures core[i] == if i < |a.code| then a.code[i]
                         else if pos <= i < pos + |b.code| then b.code[i - pos]
                         else EMPTY
    {
      EmptyAt(cfg.coreSize, i);
      assert core[i] == if pos <= i < pos + |b.code| then b.code[i - pos] else one[i];
      assert one[i] == if 0 <= i < 0 + |a.code| then a.code[i - 0] else empty[i];
    }
  }

  lemma EmptyAt(cs: nat, i: nat)
    requires i < cs
    ensures M.EmptyCore(cs)[i] == EMPTY
  {
  }

  /** Code that fits before the end of the core is written without wrapping. */
  lemma {:induction false} CodeInPlace(cs: nat, core: seq<Instruction>, pos: nat, code: seq<Instruction>, k: nat)
    requires ValidCore(cs, core) && NormalisedCode(cs, code) && k <= |code| && pos < cs && pos + k <= cs
    ensures var r := M.LoadCode(cs, core, pos, code, k);
            forall i :: 0 <= i < cs ==> r[i] == if pos <= i < pos + k then code[i - pos] else core[i]
    decreases k
  {
    hide M.LoadCode, NormalisedCode;
    LoadStep(cs, core, pos, code, k);
    if k > 0 {
      CodeInPlace(cs, core, pos, code, k - 1);
      var before, r := M.LoadCode(cs, core, pos, code, k - 1), M.LoadCode(cs, core, pos, code, k);
      forall i | 0 <= i < cs
        ensures r[i] == if pos <= i < pos + k then code[i - pos] else core[i]
      {
        assert before[i] == if pos <= i < pos + (k - 1) then code[i - pos] else core[i];
      }
    }
  }

  lemma LoadStep(cs: nat, core: seq<Instruction>, pos: nat, code: seq<Instruction>, k: nat)
    requires ValidCore(cs, core) && NormalisedCode(cs, code) && k <= |code| && pos < cs && pos + k <= cs
    ensures k == 0 ==> M.LoadCode(cs, core, pos, code, k) == core
    ensures k > 0 ==> M.LoadCode(cs, core, pos, code, k) ==
                      M.LoadCode(cs, core, pos, code, k - 1)[pos + (k - 1) := code[k - 1]]
  {
    if k > 0 {
      SmallRemainder(k - 1, cs);
    }
  }

  lemma SmallRemainder(k: nat, cs: nat)
    requires k < cs
    ensures k % cs == k
  {
  }

  // ---- the core of two cells ----

  function PlayedRound(cfg: Config, m: Machine, a: Warrior, b: Warrior, pos: nat, first: nat): M.Played
    requires cfg.coreSize >= 2 && cfg.maxProcesses >= 1 && ValidPspace(cfg, m)
    requires NormalisedWarrior(cfg.coreSize, a) && NormalisedWarrior(cfg.coreSize, b)
    requires pos < cfg.coreSize && first < 2
  {
    M.Run(cfg, M.Load(cfg, m, a, b, 0, pos), first, cfg.maxCycles * 2)
  }

  predicate RoundKeepsRange(cfg: Config, m: Machine, a: Warrior, b: Warrior, pos: nat, first: nat)
    requires cfg.coreSize >= 2 && cfg.maxProcesses >= 1 && ValidPspace(cfg, m)
    requires NormalisedWarrior(cfg.coreSize, a) && NormalisedWarrior(cfg.coreSize, b)
    requires pos < cfg.coreSize && first < 2
  {
    var p := PlayedRound(cfg, m, a, b, pos, first);
    Valid(cfg, M.Finish(p.m, p.outcome))
  }

  const IDLE := Instruction(Nop, MF, Direct, 0, Direct, 0)

  const IDLER := Warrior([IDLE], 0, None)

  /** Warriors that only ever execute NOP never die. */
  lemma {:induction false} IdlersTie(cfg: Config, m: Machine, w: nat, budget: nat)
    requires Valid(cfg, m) && w < 2 && m.queues[0] != [] && m.queues[1] != []
    requires forall i :: 0 <= i < cfg.coreSize ==> m.core[i] == IDLE
    ensures M.Run(cfg, m, w, budget).outcome == M.Tie
    decreases budget
  {
    if budget > 0 {
      StepKeepsValid(cfg, m, w);
      IdleStep(cfg, m, w);
      IdlersTie(cfg, Step(cfg, m, w).m, 1 - w, budget - 1);
    }
  }

  lemma IdleStep(cfg: Config, m: Machine, w: nat)
    requires Valid(cfg, m) && w < 2 && m.queues[w] != []
    requires forall i :: 0 <= i < cfg.coreSize ==> m.core[i] == IDLE
    ensures var s := Step(cfg, m, w);
            s.alive && s.m.core == m.core && |s.m.queues| == 2 && s.m.queues[1 - w] == m.queues[1 - w]
  {
    var pc := m.queues[w][0];
    assert m.core[pc] == IDLE;
  }

  /** Under an accepted configuration, every round keeps all numbers below the
      core size exactly when the core has at least three cells: on two cells two
      idle warriors tie, and the result 2 is no number of that core. */
  lemma RangeKeptIff(cfg: Config)
    requires cfg.Check(2) == Accepted
    ensures cfg.coreSize >= 3 <==>
            forall m, a, b, pos: nat, first: nat ::
              && ValidPspace(cfg, m) && NormalisedWarrior(cfg.coreSize, a) && NormalisedWarrior(cfg.coreSize, b)
              && pos < cfg.coreSize && first < 2
              ==> RoundKeepsRange(cfg, m, a, b, pos, first)
  {
    if cfg.coreSize >= 3 {
      forall m, a, b, pos: nat, first: nat |
        && ValidPspace(cfg, m) && NormalisedWarrior(cfg.coreSize, a) && NormalisedWarrior(cfg.coreSize, b)
        && pos < cfg.coreSize && first < 2
        ensures RoundKeepsRange(cfg, m, a, b, pos, first)
      {
        var p := PlayedRound(cfg, m, a, b, pos, first);
        M.FinishKeepsValidIff(cfg, p.m, p.outcome);
      }
    } else {
      var m := M.BeginMatch(cfg, M.Blank(cfg), IDLER, IDLER);
      TwoCellsLeaveRange(cfg, m);
    }
  }

  lemma TwoCellsLeaveRange(cfg: Config, m: Machine)
    requires cfg.coreSize == 2 && cfg.maxProcesses >= 1 && ValidPspace(cfg, m)
    ensures NormalisedWarrior(2, IDLER) && !RoundKeepsRange(cfg, m, IDLER, IDLER, 1, 0)
  {
    var loaded := M.Load(cfg, m, IDLER, IDLER, 0, 1);
    var empty := M.EmptyCore(2);
    CodeInPlace(2, empty, 0, [IDLE], 1);
    CodeInPlace(2, M.LoadCode(2, empty, 0, [IDLE], 1), 1, [IDLE], 1);
    IdlersTie(cfg, loaded, 0, cfg.maxCycles * 2);
    M.FinishKeepsValidIff(cfg, PlayedRound(cfg, m, IDLER, IDLER, 1, 0).m, M.Tie);
  }
}
