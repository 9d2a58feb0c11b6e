/** The fast engine is the plain engine, faster (tests/props.rs:95-124). */
module Versus {
  import Rng
  import opened Redcode
  import opened Configs
  import opened Semantics
  import M = Match
  import S = Scores
  import opened MarsEngine
  import opened Engines

  /** What is observable of an engine after a match. */
  datatype Report = Report(
    score: M.Score, steps: nat, core: seq<Instruction>,
    pspace: seq<seq<nat>>, bank: seq<nat>, last: seq<nat>)

  method PlayPlain(cfg: Config, a: Warrior, b: Warrior, rounds: nat, seed: int) returns (r: Report)
    requires M.Players(cfg, a, b) && Rng.Int32(seed)
    ensures var p := M.Play(cfg, M.Blank(cfg), a, b, rounds, seed);
            r == Report(p.score, p.steps, p.m.core, p.m.pspace, p.m.bank, p.m.last)
  {
    hide M.Rounds, M.BeginMatch, S.Counts;
    var mars := new Mars(cfg);
    SameFromBlank(cfg, mars.Abs(), a, b, rounds, seed);
    var score := mars.Play(a, b, rounds, seed);
    r := Report(score, mars.steps, mars.core[..], mars.pspace, mars.bank, mars.lastResult);
  }

  method PlayFast(cfg: Config, a: Warrior, b: Warrior, rounds: nat, seed: int) returns (r: Report)
    requires M.Players(cfg, a, b) && Rng.Int32(seed)
    ensures var p := M.Play(cfg, M.Blank(cfg), a, b, rounds, seed);
            r == Report(p.score, p.steps, p.m.core, p.m.pspace, p.m.bank, p.m.last)
  {
    hide M.Rounds, M.BeginMatch, S.Counts;
    var engine := new Engine(cfg);
    var ca, cb := Compile(a), Compile(b);
    UnpackCompile(cfg.coreSize, a);
    UnpackCompile(cfg.coreSize, b);
    SameFromBlank(cfg, engine.Abs(), a, b, rounds, seed);
    var score := engine.Play(ca, cb, rounds, seed);
    r := Report(score, engine.steps, engine.Core(), engine.Pspace(), engine.bank, engine.Last());
  }

  /** A match does not see what the machine held, except that with no round the
      core stays. */
  lemma SameFromBlank(cfg: Config, m: Machine, a: Warrior, b: Warrior, rounds: nat, seed: int)
    requires M.Players(cfg, a, b) && Rng.Int32(seed) && m.core == M.EmptyCore(cfg.coreSize)
    ensures var p, q := M.Play(cfg, m, a, b, rounds, seed), M.Play(cfg, M.Blank(cfg), a, b, rounds, seed);
            p.score == q.score && p.steps == q.steps && p.m.(queues := q.m.queues) == q.m
  {
    M.PlayForgetsThePast(cfg, m, M.Blank(cfg), a, b, rounds, seed);
  }

  /** Same score, same instruction count, same core, same P-space, for every
      accepted configuration of at least three cells, every two warriors, any
      number of rounds and any seed. */
  method FastEqualsPlain(cfg: Config, a: Warrior, b: Warrior, rounds: nat, seed: int)
    returns (plain: Report, fast: Report)
    requires cfg.Check(2) == Accepted && cfg.coreSize >= 3
    requires NormalisedWarrior(cfg.coreSize, a) && NormalisedWarrior(cfg.coreSize, b) && Rng.Int32(seed)
    ensures plain == fast
  {
    hide M.Play;
    plain := PlayPlain(cfg, a, b, rounds, seed);
    fast := PlayFast(cfg, a, b, rounds, seed);
  }
}
