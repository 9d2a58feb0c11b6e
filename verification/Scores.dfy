/** What a round and a match are, move by move, and what a score counts
    (src/mars.rs:554-643). */
module Scores {
  import Rng
  import opened Redcode
  import opened Configs
  import opened Semantics
  import opened MachineFacts
  import opened Match
  import opened Placement

  // ---- a battle ----

  /** Who makes move `k` when `w` opens. */
  function Mover(w: nat, k: nat): (v: nat)
    requires w < 2
    ensures v < 2
  {
    if k % 2 == 0 then w else 1 - w
  }

  /** Move `k`: the machine after it is the one before it after an instruction of
      its mover, who has a process left if another move follows. */
  ghost predicate Move(cfg: Config, w: nat, ms: seq<Machine>, k: nat)
    requires w < 2 && k + 1 < |ms|
  {
    && Valid(cfg, ms[k]) && ms[k + 1] == Step(cfg, ms[k], Mover(w, k)).m
    && |ms[k + 1].queues| == 2 && (k + 2 < |ms| ==> ms[k + 1].queues[Mover(w, k)] != [])
  }

  /** The machines of a battle, warriors moving in turn from `w` on. */
  ghost predicate Moves(cfg: Config, w: nat, ms: seq<Machine>) {
    && ms != [] && w < 2 && |ms[|ms| - 1].queues| == 2
    && forall k: nat :: k + 1 < |ms| ==> Move(cfg, w, ms, k)
  }

  /** It ends when a warrior that moved has no process left, which the other one
      wins, or as a tie with the instructions used up. */
  ghost predicate Decided(cfg: Config, w: nat, budget: nat, ms: seq<Machine>, o: Outcome)
    requires Moves(cfg, w, ms)
  {
    var n := |ms| - 1;
    && n <= budget
    && if n > 0 && ms[n].queues[Mover(w, n - 1)] == [] then o == Win(1 - Mover(w, n - 1)) else o == Tie && n == budget
  }

  lemma {:induction false} RunIsBattle(cfg: Config, m: Machine, w: nat, budget: nat) returns (ms: seq<Machine>)
    requires Valid(cfg, m) && w < 2
    ensures Moves(cfg, w, ms) && ms[0] == m
    ensures var r := Run(cfg, m, w, budget);
            Decided(cfg, w, budget, ms, r.outcome) && r.m == ms[|ms| - 1] && r.steps == |ms| - 1
    decreases budget
  {
    hide Step, Valid, Moves, Decided;
    if budget == 0 {
      ms := [m];
      Opened(cfg, m, w);
    } else {
      StepKeepsValid(cfg, m, w);
      var s := Step(cfg, m, w);
      if !s.alive {
        ms := [m, s.m];
        Ended(cfg, m, w, budget);
      } else {
        var rest := RunIsBattle(cfg, s.m, 1 - w, budget - 1);
        ms := [m] + rest;
        Shifted(cfg, m, w, rest, budget - 1, Run(cfg, s.m, 1 - w, budget - 1).outcome);
      }
    }
  }

  lemma Opened(cfg: Config, m: Machine, w: nat)
    requires Valid(cfg, m) && w < 2
    ensures Moves(cfg, w, [m]) && Decided(cfg, w, 0, [m], Tie)
  {
  }

  lemma Ended(cfg: Config, m: Machine, w: nat, budget: nat)
    requires Valid(cfg, m) && w < 2 && !Step(cfg, m, w).alive && budget > 0
    ensures var ms := [m, Step(cfg, m, w).m]; Moves(cfg, w, ms) && Decided(cfg, w, budget, ms, Win(1 - w))
  {
    hide Step;
    StepKeepsValid(cfg, m, w);
    hide Valid;
    var ms := [m, Step(cfg, m, w).m];
    assert Move(cfg, w, ms, 0);
  }

  lemma Shifted(cfg: Config, m: Machine, w: nat, rest: seq<Machine>, budget: nat, o: Outcome)
    requires w < 2 && Moves(cfg, 1 - w, rest) && Decided(cfg, 1 - w, budget, rest, o)
    requires Valid(cfg, m) && rest[0] == Step(cfg, m, w).m && Step(cfg, m, w).alive
    ensures Moves(cfg, w, [m] + rest) && Decided(cfg, w, budget + 1, [m] + rest, o)
  {
    hide Step, Valid, Move;
    var ms := [m] + rest;
    forall k: nat | k + 1 < |ms|
      ensures Move(cfg, w, ms, k)
    {
      if k == 0 {
        FirstMove(cfg, m, w, rest);
      } else {
        assert Move(cfg, 1 - w, rest, k - 1);
        LaterMove(cfg, m, w, rest, k);
      }
    }
    FirstMove(cfg, m, w, rest);
  }

  lemma FirstMove(cfg: Config, m: Machine, w: nat, rest: seq<Machine>)
    requires w < 2 && rest != [] && Valid(cfg, m) && rest[0] == Step(cfg, m, w).m && Step(cfg, m, w).alive
    ensures Move(cfg, w, [m] + rest, 0) && |rest[0].queues| == 2 && rest[0].queues[w] != []
  {
    hide Step;
    StepKeepsValid(cfg, m, w);
  }

  lemma LaterMove(cfg: Config, m: Machine, w: nat, rest: seq<Machine>, k: nat)
    requires w < 2 && 1 <= k < |rest| && Move(cfg, 1 - w, rest, k - 1)
    ensures Move(cfg, w, [m] + rest, k)
  {
    hide Step, Valid;
    assert Mover(w, k) == Mover(1 - w, k - 1);
  }

  // ---- a match ----

  /** The machine before round `k` of a match, counted from 0. */
  function Before(cfg: Config, a: Warrior, b: Warrior, seed: int, k: nat): (m: Machine)
    requires Players(cfg, a, b) && Rng.Int32(seed)
    ensures ValidPspace(cfg, m)
    decreases k, 0
  {
    if k == 0 then BeginMatch(cfg, Blank(cfg), a, b) else RoundAt(cfg, a, b, seed, k - 1).m
  }

  function RoundAt(cfg: Config, a: Warrior, b: Warrior, seed: int, k: nat): (p: Played)
    requires Players(cfg, a, b) && Rng.Int32(seed)
    ensures Valid(cfg, p.m)
    decreases k, 1
  {
    Round(cfg, Before(cfg, a, b, seed, k), a, b, 0, Position(cfg, Rng.Drawn(seed, k)), k % 2)
  }

  /** Both warriors loaded for it. */
  function LoadedAt(cfg: Config, a: Warrior, b: Warrior, seed: int, k: nat): Machine
    requires Players(cfg, a, b) && Rng.Int32(seed)
  {
    Load(cfg, Before(cfg, a, b, seed, k), a, b, 0, Position(cfg, Rng.Drawn(seed, k)))
  }

  /** Round `k` of a match: where the second warrior is loaded and who opens; what
      is in the core and in P-space before the first move; the battle; and the
      result each warrior finds in P-space cell 0 next. */
  lemma RoundPlayed(cfg: Config, a: Warrior, b: Warrior, seed: int, k: nat) returns (ms: seq<Machine>)
    requires Players(cfg, a, b) && Rng.Int32(seed)
    ensures Moves(cfg, k % 2, ms)
    ensures var p := RoundAt(cfg, a, b, seed, k);
            && Decided(cfg, k % 2, 2 * cfg.maxCycles, ms, p.outcome) && p.steps == |ms| - 1
            && p.m == ms[|ms| - 1].(last := match p.outcome
                                            case Win(w) => if w == 0 then [1, 0] else [0, 1]
                                            case Tie => [2, 2])
    ensures var cs := cfg.coreSize;
            var pos := cfg.minDistance + Rng.Drawn(seed, k) % (cs + 1 - 2 * cfg.minDistance);
            && ms[0] == LoadedAt(cfg, a, b, seed, k)
            && ms[0].queues == [[a.start], [(pos + b.start) % cs]]
            && |ms[0].core| == cs
            && (Sized(cfg, a) && Sized(cfg, b) ==>
                  forall i :: 0 <= i < cs ==>
                    ms[0].core[i] == if i < |a.code| then a.code[i]
                                     else if pos <= i < pos + |b.code| then b.code[i - pos]
                                     else Instruction(Dat, MF, Direct, 0, Direct, 0))
    ensures k == 0 ==>
              && ms[0].last == [cfg.coreSize - 1, cfg.coreSize - 1]
              && ms[0].bank == (if a.pin.Some? && a.pin == b.pin then [0, 0] else [0, 1])
              && (forall n, i :: 0 <= n < |ms[0].pspace| && 0 <= i < |ms[0].pspace[n]| ==> ms[0].pspace[n][i] == 0)
    ensures k > 0 ==> SamePspace(ms[0], RoundAt(cfg, a, b, seed, k - 1).m)
  {
    hide Run, Load, Valid, ValidPspace, BeginMatch, NormalisedCode, Moves, Decided, Position;
    var m, pos := Before(cfg, a, b, seed, k), Position(cfg, Rng.Drawn(seed, k));
    ms := RunIsBattle(cfg, Load(cfg, m, a, b, 0, pos), k % 2, cfg.maxCycles * 2);
    RoundLoads(cfg, m, a, b, pos);
    PositionIs(cfg, Rng.Drawn(seed, k));
    if Sized(cfg, a) && Sized(cfg, b) {
      LoadedApart(cfg, m, a, b, seed, k);
    }
    MatchStarts(cfg, a, b);
  }

  lemma PositionIs(cfg: Config, seed: int)
    requires cfg.Check(2) == Accepted
    ensures Position(cfg, seed) == cfg.minDistance + seed % (cfg.coreSize + 1 - 2 * cfg.minDistance)
  {
  }

  lemma RoundLoads(cfg: Config, m: Machine, a: Warrior, b: Warrior, pos: nat)
    requires Players(cfg, a, b) && ValidPspace(cfg, m) && pos < cfg.coreSize
    ensures var l := Load(cfg, m, a, b, 0, pos);
            && l.queues == [[a.start], [(pos + b.start) % cfg.coreSize]] && |l.core| == cfg.coreSize && SamePspace(l, m)
  {
    hide LoadCode, EmptyCore, ValidPspace, NormalisedCode;
    FoldIsModulo(cfg.coreSize, pos, b.start);
  }

  lemma MatchStarts(cfg: Config, a: Warrior, b: Warrior)
    requires Players(cfg, a, b)
    ensures var m := BeginMatch(cfg, Blank(cfg), a, b);
            && m.last == [cfg.coreSize - 1, cfg.coreSize - 1]
            && m.bank == (if a.pin.Some? && a.pin == b.pin then [0, 0] else [0, 1])
            && forall n, i :: 0 <= n < |m.pspace| && 0 <= i < |m.pspace[n]| ==> m.pspace[n][i] == 0
  {
  }

  // ---- what a score counts ----

  /** The rounds from `k` to `n - 1` that ended so. */
  ghost function Ending(cfg: Config, a: Warrior, b: Warrior, seed: int, o: Outcome, k: nat, n: nat): set<nat>
    requires Players(cfg, a, b) && Rng.Int32(seed)
  {
    set i: nat | k <= i < n && RoundAt(cfg, a, b, seed, i).outcome == o
  }

  /** The instructions of those rounds. */
  function Instructed(cfg: Config, a: Warrior, b: Warrior, seed: int, k: nat, n: nat): nat
    requires Players(cfg, a, b) && Rng.Int32(seed) && k <= n
    decreases n - k
  {
    if k == n then 0 else RoundAt(cfg, a, b, seed, k).steps + Instructed(cfg, a, b, seed, k + 1, n)
  }

  lemma EndingNext(cfg: Config, a: Warrior, b: Warrior, seed: int, o: Outcome, k: nat, n: nat)
    requires Players(cfg, a, b) && Rng.Int32(seed) && k < n
    ensures |Ending(cfg, a, b, seed, o, k, n)|
            == |Ending(cfg, a, b, seed, o, k + 1, n)| + if RoundAt(cfg, a, b, seed, k).outcome == o then 1 else 0
  {
    hide RoundAt, Players;
    var rest := Ending(cfg, a, b, seed, o, k + 1, n);
    if RoundAt(cfg, a, b, seed, k).outcome == o {
      assert Ending(cfg, a, b, seed, o, k, n) == rest + {k};
    } else {
      assert Ending(cfg, a, b, seed, o, k, n) == rest;
    }
  }

  lemma {:induction false} RoundsCount(cfg: Config, a: Warrior, b: Warrior, seed: int, k: nat, n: nat, score: Score)
    requires Players(cfg, a, b) && Rng.Int32(seed) && k <= n
    ensures var r := Rounds(cfg, Before(cfg, a, b, seed, k), a, b, k, n, Rng.Drawn(seed, k), score);
            && r.score.w1 == score.w1 + |Ending(cfg, a, b, seed, Win(0), k, n)|
            && r.score.w2 == score.w2 + |Ending(cfg, a, b, seed, Win(1), k, n)|
            && r.score.ties == score.ties + |Ending(cfg, a, b, seed, Tie, k, n)|
            && r.steps == Instructed(cfg, a, b, seed, k, n) && r.m == Before(cfg, a, b, seed, n)
    decreases n - k
  {
    hide Players, Round, BeginMatch, Ending, Position, Rng.Next, Valid, ValidPspace;
    if k == n {
      NoneEnding(cfg, a, b, seed, k);
    } else {
      var p := RoundAt(cfg, a, b, seed, k);
      RoundsCount(cfg, a, b, seed, k + 1, n, Count(score, p.outcome));
      EndingNext(cfg, a, b, seed, Win(0), k, n);
      EndingNext(cfg, a, b, seed, Win(1), k, n);
      EndingNext(cfg, a, b, seed, Tie, k, n);
      OutcomesAre(cfg, a, b, seed, k);
    }
  }

  lemma NoneEnding(cfg: Config, a: Warrior, b: Warrior, seed: int, k: nat)
    requires Players(cfg, a, b) && Rng.Int32(seed)
    ensures forall o :: Ending(cfg, a, b, seed, o, k, k) == {}
  {
    hide RoundAt, Players;
  }

  lemma OutcomesAre(cfg: Config, a: Warrior, b: Warrior, seed: int, k: nat)
    requires Players(cfg, a, b) && Rng.Int32(seed)
    ensures RoundAt(cfg, a, b, seed, k).outcome in {Win(0), Win(1), Tie}
  {
    hide Players, Round, Before, Position;
  }

  /** The rounds the first warrior won, those the second won, and those nobody
      won. */
  ghost predicate Counts(cfg: Config, a: Warrior, b: Warrior, rounds: nat, seed: int, s: Score)
    requires Players(cfg, a, b) && Rng.Int32(seed)
  {
    && s.w1 == |Ending(cfg, a, b, seed, Win(0), 0, rounds)|
    && s.w2 == |Ending(cfg, a, b, seed, Win(1), 0, rounds)|
    && s.ties == |Ending(cfg, a, b, seed, Tie, 0, rounds)|
  }

  /** From any machine, the score of a match counts its rounds; the instructions
      are those of all rounds, and the machine is as the last one left it. */
  lemma PlayCounts(cfg: Config, m: Machine, a: Warrior, b: Warrior, rounds: nat, seed: int)
    requires Players(cfg, a, b) && Rng.Int32(seed)
    ensures var p := Play(cfg, m, a, b, rounds, seed);
            && Counts(cfg, a, b, rounds, seed, p.score) && p.score.w1 + p.score.w2 + p.score.ties == rounds
            && p.steps == Instructed(cfg, a, b, seed, 0, rounds)
            && (rounds > 0 ==> p.m == RoundAt(cfg, a, b, seed, rounds - 1).m)
            && Result(cfg, a, b, rounds, seed) == (p.score, p.steps)
  {
    hide RoundAt, Rounds, BeginMatch, Ending;
    PlayForgetsThePast(cfg, m, Blank(cfg), a, b, rounds, seed);
    RoundsCount(cfg, a, b, seed, 0, rounds, NOSCORE);
    AllRounds(cfg, a, b, seed, 0, rounds);
  }

  lemma {:induction false} AllRounds(cfg: Config, a: Warrior, b: Warrior, seed: int, k: nat, n: nat)
    requires Players(cfg, a, b) && Rng.Int32(seed) && k <= n
    ensures |Ending(cfg, a, b, seed, Win(0), k, n)| + |Ending(cfg, a, b, seed, Win(1), k, n)|
            + |Ending(cfg, a, b, seed, Tie, k, n)| == n - k
    decreases n - k
  {
    hide Players, RoundAt, Ending;
    if k == n {
      NoneEnding(cfg, a, b, seed, k);
    } else {
      AllRounds(cfg, a, b, seed, k + 1, n);
      EndingNext(cfg, a, b, seed, Win(0), k, n);
      EndingNext(cfg, a, b, seed, Win(1), k, n);
      EndingNext(cfg, a, b, seed, Tie, k, n);
      OutcomesAre(cfg, a, b, seed, k);
    }
  }
}
