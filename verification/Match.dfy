/** Rounds and matches over values: loading, the alternation of moves, results
    in P-space, positions from the generator (src/mars.rs:556-643). */
module Match {
  import Rng
  import opened Redcode
  import opened Configs
  import opened Semantics
  import opened MachineFacts

  datatype Outcome = Win(w: nat) | Tie

  datatype Score = Score(w1: nat, w2: nat, ties: nat)

  const NOSCORE := Score(0, 0, 0)

  function Count(s: Score, o: Outcome): Score {
    match o
    case Tie => s.(ties := s.ties + 1)
    case Win(w) => if w == 0 then s.(w1 := s.w1 + 1) else s.(w2 := s.w2 + 1)
  }

  // ---- playing out a loaded round ----

  datatype Played = Played(m: Machine, outcome: Outcome, steps: nat)

  /** From `m`, warrior `w` to move and `budget` instructions left. */
  function Run(cfg: Config, m: Machine, w: nat, budget: nat): (r: Played)
    requires Valid(cfg, m) && w < 2
    ensures Valid(cfg, r.m) && r.steps <= budget && (r.outcome.Win? ==> r.outcome.w < 2)
    ensures r.m.bank == m.bank && |r.m.pspace| == |m.pspace|
    decreases budget
  {
    if budget == 0 then Played(m, Tie, 0)
    else
      StepKeepsValid(cfg, m, w);
      var s := Step(cfg, m, w);
      if !s.alive then Played(s.m, Win(1 - w), 1)
      else
        var r := Run(cfg, s.m, 1 - w, budget - 1);
        r.(steps := r.steps + 1)
  }

  lemma OutOfBudget(cfg: Config, m: Machine, w: nat)
    requires Valid(cfg, m) && w < 2
    ensures Run(cfg, m, w, 0) == Played(m, Tie, 0)
  {
  }

  /** The result of a round, left in P-space cell 0 for the next one. */
  function Finish(m: Machine, o: Outcome): Machine
    requires |m.last| == 2 && (o.Win? ==> o.w < 2)
  {
    match o
    case Tie => m.(last := [2, 2])
    case Win(w) => m.(last := if w == 0 then [1, 0] else [0, 1])
  }

  /** Finishing a round keeps P-space below the core size on every core except
      a tie's result on the core of two cells. */
  lemma FinishKeepsValidIff(cfg: Config, m: Machine, o: Outcome)
    requires Valid(cfg, m) && (o.Win? ==> o.w < 2)
    ensures |m.last| == 2 && (Valid(cfg, Finish(m, o)) <==> (o.Tie? ==> cfg.coreSize >= 3))
  {
    var f := Finish(m, o);
    if o.Tie? && cfg.coreSize < 3 {
      assert f.last[0] == 2;
    }
  }

  // ---- loading ----

  /** The first `k` instructions of `code` written from `pos` on, around the
      core. */
  function LoadCode(cs: nat, core: seq<Instruction>, pos: nat, code: seq<Instruction>, k: nat): (r: seq<Instruction>)
    requires ValidCore(cs, core) && pos < cs && NormalisedCode(cs, code) && k <= |code|
    ensures ValidCore(cs, r)
  {
    if k == 0 then core
    else
      var before := LoadCode(cs, core, pos, code, k - 1);
      before[Plus(cs, pos, (k - 1) % cs) := code[k - 1]]
  }

  function EmptyCore(cs: nat): (r: seq<Instruction>)
    requires cs >= 1
    ensures ValidCore(cs, r)
  {
    seq(cs, _ => EMPTY)
  }

  function Load(cfg: Config, m: Machine, a: Warrior, b: Warrior, posA: nat, posB: nat): (r: Machine)
    requires cfg.coreSize >= 2 && cfg.maxProcesses >= 1 && ValidPspace(cfg, m)
    requires NormalisedWarrior(cfg.coreSize, a) && NormalisedWarrior(cfg.coreSize, b)
    requires posA < cfg.coreSize && posB < cfg.coreSize
    ensures Valid(cfg, r) && r.queues[0] != [] && r.queues[1] != []
  {
    var cs := cfg.coreSize;
    var one := LoadCode(cs, EmptyCore(cs), posA, a.code, |a.code|);
    var two := LoadCode(cs, one, posB, b.code, |b.code|);
    m.(core := two, queues := [[Plus(cs, posA, a.start)], [Plus(cs, posB, b.start)]])
  }

  /** Equal but for core and queues, which the next round's loading replaces. */
  predicate SamePspace(m: Machine, m': Machine) {
    m.pspace == m'.pspace && m.bank == m'.bank && m.last == m'.last
  }

  lemma LoadForgets(cfg: Config, m: Machine, m': Machine, a: Warrior, b: Warrior, posA: nat, posB: nat)
    requires cfg.coreSize >= 2 && cfg.maxProcesses >= 1 && ValidPspace(cfg, m) && SamePspace(m, m')
    requires NormalisedWarrior(cfg.coreSize, a) && NormalisedWarrior(cfg.coreSize, b)
    requires posA < cfg.coreSize && posB < cfg.coreSize
    ensures ValidPspace(cfg, m') && Load(cfg, m, a, b, posA, posB) == Load(cfg, m', a, b, posA, posB)
  {
  }

  // ---- rounds and matches ----

  predicate Players(cfg: Config, a: Warrior, b: Warrior) {
    && cfg.Playable()
    && NormalisedWarrior(cfg.coreSize, a) && NormalisedWarrior(cfg.coreSize, b)
  }

  function Round(cfg: Config, m: Machine, a: Warrior, b: Warrior, posA: nat, posB: nat, first: nat): (r: Played)
    requires Players(cfg, a, b) && ValidPspace(cfg, m)
    requires posA < cfg.coreSize && posB < cfg.coreSize && first < 2
    ensures Valid(cfg, r.m) && (r.outcome.Win? ==> r.outcome.w < 2)
    ensures r.m.bank == m.bank && |r.m.pspace| == |m.pspace|
  {
    var p := Run(cfg, Load(cfg, m, a, b, posA, posB), first, cfg.maxCycles * 2);
    FinishKeepsValidIff(cfg, p.m, p.outcome);
    p.(m := Finish(p.m, p.outcome))
  }

  /** P-space of a new match: banks shared between equal PINs, cell 0 at
      coreSize - 1. Core and queues stay as they are. */
  function BeginMatch(cfg: Config, m: Machine, a: Warrior, b: Warrior): (r: Machine)
    requires cfg.coreSize >= 2
    ensures ValidPspace(cfg, r)
    ensures r.core == m.core && r.queues == m.queues
  {
    var shared := a.pin.Some? && a.pin == b.pin;
    var blank: seq<nat> := seq(cfg.PspaceSize(), _ => 0);
    m.(pspace := if shared then [blank] else [blank, blank],
       bank := if shared then [0, 0] else [0, 1],
       last := [cfg.coreSize - 1, cfg.coreSize - 1])
  }

  function Positions(cfg: Config): (r: nat)
    requires cfg.Check(2) == Accepted
    ensures r >= 1
  {
    cfg.coreSize + 1 - 2 * cfg.minDistance
  }

  /** Where the second warrior is loaded for this seed; the first is at 0. */
  function Position(cfg: Config, seed: int): (r: nat)
    requires cfg.Check(2) == Accepted
    ensures cfg.minDistance <= r <= cfg.coreSize - cfg.minDistance
  {
    cfg.minDistance + seed % Positions(cfg)
  }

  datatype MatchPlayed = MatchPlayed(m: Machine, score: Score, steps: nat)

  /** Rounds `r` to `rounds - 1`; odd rounds are opened by warrior 1. */
  function Rounds(cfg: Config, m: Machine, a: Warrior, b: Warrior, r: nat, rounds: nat, seed: int,
                  score: Score): (res: MatchPlayed)
    requires Players(cfg, a, b) && ValidPspace(cfg, m) && Rng.Int32(seed) && r <= rounds
    ensures ValidPspace(cfg, res.m)
    decreases rounds - r
  {
    if r == rounds then MatchPlayed(m, score, 0)
    else
      var p := Round(cfg, m, a, b, 0, Position(cfg, seed), r % 2);
      var res := Rounds(cfg, p.m, a, b, r + 1, rounds, Rng.Next(seed), Count(score, p.outcome));
      res.(steps := res.steps + p.steps)
  }

  function Play(cfg: Config, m: Machine, a: Warrior, b: Warrior, rounds: nat, seed: int): (res: MatchPlayed)
    requires Players(cfg, a, b) && Rng.Int32(seed)
    ensures ValidPspace(cfg, res.m)
  {
    Rounds(cfg, BeginMatch(cfg, m, a, b), a, b, 0, rounds, seed, NOSCORE)
  }

  /** Nothing an engine did before reaches into a match: from any two machines
      the score and the instruction count agree, and so does the whole machine
      afterwards once a round was played. */
  lemma PlayForgetsThePast(cfg: Config, m: Machine, m': Machine, a: Warrior, b: Warrior, rounds: nat, seed: int)
    requires Players(cfg, a, b) && Rng.Int32(seed)
    ensures var p, p' := Play(cfg, m, a, b, rounds, seed), Play(cfg, m', a, b, rounds, seed);
            p.score == p'.score && p.steps == p'.steps && (rounds > 0 ==> p.m == p'.m)
  {
    var n, n' := BeginMatch(cfg, m, a, b), BeginMatch(cfg, m', a, b);
    if rounds > 0 {
      assert Load(cfg, n, a, b, 0, Position(cfg, seed)) == Load(cfg, n', a, b, 0, Position(cfg, seed));
    }
  }

  /** A machine before anything ran. */
  function Blank(cfg: Config): Machine
    requires cfg.coreSize >= 1
  {
    Machine(EmptyCore(cfg.coreSize), [[], []], [], [], [])
  }

  /** Nothing of a new engine but its empty core and queues reaches a match. */
  lemma NewMatch(cfg: Config, m: Machine, a: Warrior, b: Warrior)
    requires cfg.coreSize >= 2 && m.core == EmptyCore(cfg.coreSize) && m.queues == [[], []]
    ensures BeginMatch(cfg, m, a, b) == BeginMatch(cfg, Blank(cfg), a, b)
  {
  }

  /** The score of a match and the instructions it takes: what every scheduler
      must report for it. */
  function Result(cfg: Config, a: Warrior, b: Warrior, rounds: nat, seed: int): (Score, nat)
    requires Players(cfg, a, b) && Rng.Int32(seed)
  {
    var p := Play(cfg, Blank(cfg), a, b, rounds, seed);
    (p.score, p.steps)
  }
}
