/** The fast engine as its callers see it (src/fast.rs:163-182, 602-779):
    loading, rounds and matches over one set of reused buffers. */
module Engines {
  import Bits
  import Rng
  import M = Match
  import S = Scores
  import MachineFacts
  import opened Redcode
  import opened Configs
  import opened Semantics
  import opened Cells
  import opened FastEngine

  /** A warrior packed for the fast engine. */
  datatype Compiled = Compiled(code: seq<Cell>, start: u16, pin: Option<int>)

  function Compile(w: Warrior): (c: Compiled)
    ensures ValidCells(c.code)
  {
    Compiled(EncodeAll(w.code), Low16(w.start), w.pin)
  }

  function Unpack(c: Compiled): Warrior
    requires ValidCells(c.code)
  {
    Warrior(DecodeAll(c.code), c.start as nat, c.pin)
  }

  /** Compiling keeps every warrior of a core up to 65535 cells. */
  lemma UnpackCompile(cs: nat, w: Warrior)
    requires cs <= 65535 && NormalisedWarrior(cs, w)
    ensures Unpack(Compile(w)) == w
  {
    var c := Compile(w);
    forall k | 0 <= k < |w.code|
      ensures DecodeAll(c.code)[k] == w.code[k]
    {
      DecodeEncode(w.code[k]);
    }
    assert DecodeAll(c.code) == w.code;
  }

  /** Compiled for this configuration: codes valid, numbers in range. */
  predicate Fit(cfg: Config, a: Compiled, b: Compiled) {
    ValidCells(a.code) && ValidCells(b.code) && M.Players(cfg, Unpack(a), Unpack(b))
  }

  class Engine {
    const cfg: Config
    const cs: u32
    const maxProcesses: nat
    const core: array<Cell>
    const qbuf: seq<array<u16>>
    const mask: nat
    var startPc: seq<u16>
    /** Queue state between segments of a round. */
    var head: seq<nat>
    var len: seq<nat>
    const pspace: seq<array<u16>>
    var bank: seq<nat>
    const lastResult: array<u16>
    const pspaceSize: u32
    var steps: nat

    ghost predicate Rep()
      reads this, core
    {
      Fixed() && ValidCells(core[..])
    }

    /** Well-formed but for the cells of the core. */
    ghost predicate Fixed()
      reads this
    {
      && Layout(cfg, core, qbuf, head, len, mask, cs, maxProcesses, pspace, bank, lastResult, pspaceSize)
      && |startPc| == 2 && cfg.Playable() && cs as nat == cfg.coreSize
    }

    ghost function Abs(): (m: Machine)
      requires Rep()
      reads this, core, qbuf, pspace, lastResult
      ensures |m.core| == cfg.coreSize && |m.queues| == 2
      ensures |m.queues[0]| == len[0] && |m.queues[1]| == len[1]
    {
      Denote(core[..], qbuf[0][..], qbuf[1][..], head, len, pspace[0][..], pspace[1][..], bank, lastResult[..])
    }

    constructor (cfg: Config)
      requires cfg.Playable()
      ensures Rep() && this.cfg == cfg && steps == 0 && DecodeAll(core[..]) == M.EmptyCore(cfg.coreSize)
      ensures fresh(core) && fresh(qbuf[0]) && fresh(qbuf[1]) && fresh(pspace[0]) && fresh(pspace[1])
      ensures fresh(lastResult)
    {
      var ps := cfg.PspaceSize();
      var cap := Bits.NextPow2(cfg.maxProcesses + 1);
      var zero := Cell(0, 0, 0, 0, 0);
      ZeroIsEmpty(zero);
      this.cfg := cfg;
      cs := cfg.coreSize as u32;
      maxProcesses := cfg.maxProcesses;
      core := new Cell[cfg.coreSize](_ => zero);
      var q0 := new u16[cap](_ => 0);
      var q1 := new u16[cap](_ => 0);
      qbuf := [q0, q1];
      mask := cap - 1;
      startPc := [0, 0];
      head := [0, 0];
      len := [0, 0];
      var p0 := new u16[ps](_ => 0);
      var p1 := new u16[ps](_ => 0);
      pspace := [p0, p1];
      bank := [0, 1];
      lastResult := new u16[2](_ => (cfg.coreSize - 1) as u16);
      pspaceSize := ps as u32;
      steps := 0;
      new;
      ZeroedCore(core[..], zero);
    }

    /** The core as instructions. */
    function Core(): (r: seq<Instruction>)
      requires Rep()
      reads this, core, qbuf, pspace, lastResult
      ensures r == Abs().core
    {
      DecodeAll(core[..])
    }

    /** The P-space banks in use, and cell 0 of each warrior. */
    function Pspace(): (r: seq<seq<nat>>)
      requires Rep()
      reads this, core, qbuf, pspace, lastResult
      ensures r == Abs().pspace
    {
      if bank[1] == 0 then [Nats(pspace[0][..])] else [Nats(pspace[0][..]), Nats(pspace[1][..])]
    }

    function Last(): (r: seq<nat>)
      requires Rep()
      reads this, core, qbuf, pspace, lastResult
      ensures r == Abs().last
    {
      Nats(lastResult[..])
    }

    method BeginMatch(a: Compiled, b: Compiled)
      requires Rep() && Fit(cfg, a, b)
      modifies this`bank, pspace, lastResult
      ensures Rep() && Abs() == M.BeginMatch(cfg, old(Abs()), Unpack(a), Unpack(b))
    {
      hide ValidCells, DecodeAll, Ring;
      var shared := a.pin.Some? && a.pin == b.pin;
      bank := if shared then [0, 0] else [0, 1];
      forall i | 0 <= i < pspace[0].Length {
        pspace[0][i] := 0;
      }
      forall i | 0 <= i < pspace[1].Length {
        pspace[1][i] := 0;
      }
      lastResult[0], lastResult[1] := (cs - 1) as u16, (cs - 1) as u16;
      ghost var blank: seq<nat> := seq(cfg.PspaceSize(), _ => 0);
      assert Nats(pspace[0][..]) == blank && Nats(pspace[1][..]) == blank;
      assert Nats(lastResult[..]) == [cfg.coreSize - 1, cfg.coreSize - 1];
      assert core[..] == old(core[..]) && qbuf[0][..] == old(qbuf[0][..]) && qbuf[1][..] == old(qbuf[1][..]);
    }

    /** Write a warrior from `pos` on; the write position wraps at the end. */
    method Place(code: seq<Cell>, pos: nat)
      requires Rep() && ValidCells(code) && pos < cfg.coreSize
      requires ValidCore(cfg.coreSize, DecodeAll(core[..])) && NormalisedCode(cfg.coreSize, DecodeAll(code))
      modifies core
      ensures Rep()
      ensures DecodeAll(core[..]) == M.LoadCode(cfg.coreSize, old(DecodeAll(core[..])), pos, DecodeAll(code), |code|)
    {
      hide DecodeAll, Decode, ValidCore, NormalisedCode, Plus;
      assert cs as nat == cfg.coreSize == core.Length;
      var at := pos;
      var k := 0;
      FirstPlace(cfg.coreSize, pos);
      while k < |code|
        invariant 0 <= k <= |code| && Rep()
        invariant at == Plus(cfg.coreSize, pos, k % cfg.coreSize)
        invariant DecodeAll(core[..]) == M.LoadCode(cfg.coreSize, old(DecodeAll(core[..])), pos, DecodeAll(code), k)
      {
        ghost var before := core[..];
        core[at] := code[k];
        assert core[..] == before[at := code[k]];
        DecodeAllUpdate(before, at, code[k]);
        NextPlace(cfg.coreSize, pos, k);
        at := at + 1;
        if at == cs as nat {
          at := 0;
        }
        k := k + 1;
      }
    }

    static lemma DecodeAllUpdate(s: seq<Cell>, at: nat, c: Cell)
      requires ValidCells(s) && at < |s| && ValidCell(c)
      ensures ValidCells(s[at := c]) && DecodeAll(s[at := c]) == DecodeAll(s)[at := Decode(c)]
    {
    }

    static lemma FirstPlace(cs: nat, pos: nat)
      requires pos < cs
      ensures Plus(cs, pos, 0 % cs) == pos
    {
    }

    static lemma NextPlace(cs: nat, pos: nat, k: nat)
      requires pos < cs
      ensures Plus(cs, pos, (k + 1) % cs) == Inc(cs, Plus(cs, pos, k % cs))
    {
      var q, r := k / cs, k % cs;
      if r + 1 == cs {
        assert (q + 1) * cs == q * cs + cs;
        Bits.ModUnique(k + 1, cs, q + 1, 0);
      } else {
        Bits.ModUnique(k + 1, cs, q, r + 1);
      }
    }

    method Load(a: Compiled, b: Compiled, posA: u32, posB: u32)
      requires Rep() && Fit(cfg, a, b) && posA < cs && posB < cs
      modifies core, this`startPc
      ensures Rep()
      ensures var n, w, v := cfg.coreSize, Unpack(a), Unpack(b);
              var one := M.LoadCode(n, M.EmptyCore(n), posA as nat, w.code, |w.code|);
              && DecodeAll(core[..]) == M.LoadCode(n, one, posB as nat, v.code, |v.code|)
              && startPc[0] as nat == Plus(n, posA as nat, w.start)
                 && startPc[1] as nat == Plus(n, posB as nat, v.start)
    {
      hide DecodeAll, M.LoadCode, ValidCells;
      var zero := Cell(0, 0, 0, 0, 0);
      ZeroIsEmpty(zero);
      forall i | 0 <= i < core.Length {
        core[i] := zero;
      }
      ZeroedCore(core[..], zero);
      Place(a.code, posA as nat);
      Place(b.code, posB as nat);
      MachineFacts.FoldIsModulo(cfg.coreSize, posA as nat, a.start as nat);
      MachineFacts.FoldIsModulo(cfg.coreSize, posB as nat, b.start as nat);
      startPc := [((posA + a.start as u32) % cs) as u16, ((posB + b.start as u32) % cs) as u16];
    }

    static lemma ZeroedCore(s: seq<Cell>, zero: Cell)
      requires |s| >= 1 && ValidCell(zero) && Decode(zero) == EMPTY
      requires forall i :: 0 <= i < |s| ==> s[i] == zero
      ensures ValidCells(s) && DecodeAll(s) == M.EmptyCore(|s|)
    {
    }

    /** Core cleared, warriors placed, one process each. Whatever earlier rounds
        left in the queue buffers is out of reach. */
    method StartRound(a: Compiled, b: Compiled, posA: u32, posB: u32)
      requires Rep() && Fit(cfg, a, b) && posA < cs && posB < cs && ValidPspace(cfg, Abs())
      modifies core, qbuf, this`startPc, this`head, this`len
      ensures Rep() && len == [1, 1]
      ensures Abs() == M.Load(cfg, old(Abs()), Unpack(a), Unpack(b), posA as nat, posB as nat)
    {
      hide DecodeAll, M.LoadCode, ValidCells, ValidPspace, Fit;
      Load(a, b, posA, posB);
      qbuf[0][0] := startPc[0];
      qbuf[1][0] := startPc[1];
      head := [0, 0];
      len := [1, 1];
      assert Ring(qbuf[0][..], 0, 1) == [startPc[0] as nat] && Ring(qbuf[1][..], 0, 1) == [startPc[1] as nat];
      assert pspace[0][..] == old(pspace[0][..]) && pspace[1][..] == old(pspace[1][..]);
      assert lastResult[..] == old(lastResult[..]);
    }

    /** A view over this engine's buffers. */
    ghost predicate IsView(r: Run)
      reads this
    {
      && r.cfg == cfg && r.core == core && r.qbuf == qbuf && r.pspace == pspace && r.lastResult == lastResult
      && r.bank == bank && r.mask == mask
    }

    /** The hot-loop view of the current round: same buffers, same machine. */
    method View() returns (r: Run)
      requires Rep()
      ensures fresh(r) && IsView(r) && r.Rep() && r.Abs() == Abs() && r.head == head && r.len == len
    {
      r := new Run(cfg, core, qbuf, head, len, mask, cs, maxProcesses, pspace, bank, lastResult, pspaceSize);
    }

    /** Keep a view's queue state for the next segment of the round. */
    method Park(r: Run)
      requires r.Rep() && IsView(r) && Fixed()
      modifies this`head, this`len
      ensures Rep() && Abs() == r.Abs() && head == r.head && len == r.len
    {
      head := r.head;
      len := r.len;
    }

    /** Record a round's result for P-space cell 0 of the next round. */
    method FinishRound(outcome: M.Outcome, executed: nat)
      requires Rep() && (outcome.Win? ==> outcome.w < 2)
      modifies this`steps, lastResult
      ensures Rep() && steps == old(steps) + executed && Abs() == M.Finish(old(Abs()), outcome)
    {
      hide DecodeAll, ValidCells;
      steps := steps + executed;
      match outcome {
        case Win(x) =>
          lastResult[x] := 1;
          lastResult[1 - x] := 0;
        case Tie =>
          lastResult[0], lastResult[1] := 2, 2;
      }
      assert Nats(lastResult[..]) == [lastResult[0] as nat, lastResult[1] as nat];
      assert core[..] == old(core[..]) && qbuf[0][..] == old(qbuf[0][..]) && qbuf[1][..] == old(qbuf[1][..]);
      assert pspace[0][..] == old(pspace[0][..]) && pspace[1][..] == old(pspace[1][..]);
    }

    /** A round. The view's queues are dropped with it: the engine keeps the
        core and P-space the round ended with. */
    method Round(a: Compiled, b: Compiled, posA: u32, posB: u32, first: nat) returns (outcome: M.Outcome)
      requires Rep() && Fit(cfg, a, b) && posA < cs && posB < cs && first < 2 && ValidPspace(cfg, Abs())
      modifies this, core, qbuf, pspace, lastResult
      ensures Rep()
      ensures var p := M.Round(cfg, old(Abs()), Unpack(a), Unpack(b), posA as nat, posB as nat, first);
              outcome == p.outcome && steps == old(steps) + p.steps && Abs().(queues := p.m.queues) == p.m
    {
      hide DecodeAll, ValidCells, ValidPspace, Ring, Valid, M.Run, M.Load, Nats;
      StartRound(a, b, posA, posB);
      assert Abs() == M.Load(cfg, old(Abs()), Unpack(a), Unpack(b), posA as nat, posB as nat);
      var r := View();
      var executed;
      outcome, executed := r.Battle(cfg.maxCycles * 2, first);
      assert Abs().(queues := r.Abs().queues) == r.Abs();
      FinishRound(outcome, executed);
    }

    /** A match: the same result as the specification's, whatever this engine
        played before. */
    method Play(a: Compiled, b: Compiled, rounds: nat, seed: int) returns (score: M.Score)
      requires Rep() && Fit(cfg, a, b) && Rng.Int32(seed)
      modifies this, core, qbuf, pspace, lastResult
      ensures Rep()
      ensures var p := M.Play(cfg, old(Abs()), Unpack(a), Unpack(b), rounds, seed);
              score == p.score && steps == old(steps) + p.steps && Abs().(queues := p.m.queues) == p.m
      ensures S.Counts(cfg, Unpack(a), Unpack(b), rounds, seed, score)
    {
      hide ValidCells, ValidPspace, Denote, Layout, M.Round, M.BeginMatch, M.Players, M.Position, Rng.Next, S.Counts;
      S.PlayCounts(cfg, Abs(), Unpack(a), Unpack(b), rounds, seed);
      var drawn := seed;
      score := M.NOSCORE;
      ghost var v, w := Unpack(a), Unpack(b);
      BeginMatch(a, b);
      ghost var m := Abs();
      ghost var base, whole := steps, M.Rounds(cfg, m, v, w, 0, rounds, seed, score);
      for r := 0 to rounds
        invariant Rep() && Rng.Int32(drawn) && base <= steps
        invariant ValidPspace(cfg, m) && Abs().(queues := m.queues) == m
        invariant var p := M.Rounds(cfg, m, v, w, r, rounds, drawn, score);
                  whole == p.(steps := p.steps + (steps - base))
      {
        var pos := Draw(drawn);
        SameRound(m, Abs(), v, w, pos as nat, r % 2);
        m := M.Round(cfg, m, v, w, 0, M.Position(cfg, drawn), r % 2).m;
        drawn := Rng.Next(drawn);
        var outcome := Round(a, b, 0, pos, r % 2);
        score := M.Count(score, outcome);
      }
    }

    /** Where the second warrior goes for this seed. */
    function Draw(seed: int): (pos: u32)
      requires cfg.Playable()
      ensures pos as nat == M.Position(cfg, seed) && (pos as nat) < cfg.coreSize
    {
      var sep := cfg.minDistance;
      var positions := cfg.coreSize + 1 - 2 * sep;
      (sep + seed % positions) as u32
    }

    lemma SameRound(m: Machine, m': Machine, a: Warrior, b: Warrior, pos: nat, first: nat)
      requires M.Players(cfg, a, b) && ValidPspace(cfg, m) && M.SamePspace(m, m') && pos < cfg.coreSize && first < 2
      ensures ValidPspace(cfg, m') && M.Round(cfg, m, a, b, 0, pos, first) == M.Round(cfg, m', a, b, 0, pos, first)
    {
      M.LoadForgets(cfg, m, m', a, b, 0, pos);
    }
  }
}
