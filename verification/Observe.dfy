/** What an observer of a round is shown (src/mars.rs:60-91, 540-585): after
    every instruction the machine, the warrior that moved and the cells it
    wrote. */
module Observed {
  import opened Configs
  import opened Semantics
  import opened MachineFacts
  import opened Match
  import opened Scores

  datatype Seen = Seen(before: Machine, w: nat, written: seq<nat>, after: Machine)

  /** Every instruction from `m` on, in order. */
  function Watch(cfg: Config, m: Machine, w: nat, budget: nat): seq<Seen>
    requires Valid(cfg, m) && w < 2
    decreases budget
  {
    if budget == 0 then []
    else
      StepKeepsValid(cfg, m, w);
      var s := Step(cfg, m, w);
      [Seen(m, w, s.written, s.m)] + if s.alive then Watch(cfg, s.m, 1 - w, budget - 1) else []
  }

  /** An observer sees every instruction of the round, and the round ends where
      its last sighting does. */
  lemma {:induction false} WatchSeesTheRound(cfg: Config, m: Machine, w: nat, budget: nat)
    requires Valid(cfg, m) && w < 2
    ensures var seen, p := Watch(cfg, m, w, budget), Run(cfg, m, w, budget);
            && |seen| == p.steps
            && p.m == (if seen == [] then m else seen[|seen| - 1].after)
    decreases budget
  {
    hide Step, Valid;
    if budget > 0 {
      var s := Step(cfg, m, w);
      StepKeepsValid(cfg, m, w);
      if s.alive {
        WatchSeesTheRound(cfg, s.m, 1 - w, budget - 1);
      }
    }
  }

  /** An observer is shown the machines of the battle, who moved and what was
      written, move by move. */
  lemma {:induction false} WatchIsMoves(cfg: Config, m: Machine, w: nat, budget: nat, ms: seq<Machine>)
    requires Valid(cfg, m) && w < 2 && Moves(cfg, w, ms) && ms[0] == m && |ms| - 1 == Run(cfg, m, w, budget).steps
    ensures |Watch(cfg, m, w, budget)| == |ms| - 1
    ensures forall k: nat :: k + 1 < |ms| ==> Shows(cfg, w, ms, Watch(cfg, m, w, budget)[k], k)
    decreases budget
  {
    hide Step, Valid, Move, Shows;
    WatchSeesTheRound(cfg, m, w, budget);
    if |ms| > 1 {
      var s := Step(cfg, m, w);
      assert Move(cfg, w, ms, 0);
      FirstShown(cfg, w, ms);
      StepKeepsValid(cfg, m, w);
      if s.alive {
        var rest := ms[1..];
        MovesOn(cfg, w, ms);
        WatchIsMoves(cfg, s.m, 1 - w, budget - 1, rest);
        forall k: nat | 0 < k && k + 1 < |ms|
          ensures Shows(cfg, w, ms, Watch(cfg, m, w, budget)[k], k)
        {
          LaterShown(cfg, w, ms, Watch(cfg, s.m, 1 - w, budget - 1)[k - 1], k);
        }
      }
    }
  }

  /** Move `k` as it is shown. */
  ghost predicate Shows(cfg: Config, w: nat, ms: seq<Machine>, seen: Seen, k: nat)
    requires w < 2 && k + 1 < |ms|
  {
    && Valid(cfg, ms[k])
    && seen == Seen(ms[k], Mover(w, k), Step(cfg, ms[k], Mover(w, k)).written, ms[k + 1])
  }

  lemma FirstShown(cfg: Config, w: nat, ms: seq<Machine>)
    requires w < 2 && |ms| > 1 && Move(cfg, w, ms, 0)
    ensures ms[1] == Step(cfg, ms[0], w).m && Shows(cfg, w, ms, Seen(ms[0], w, Step(cfg, ms[0], w).written, ms[1]), 0)
  {
    hide Step, Valid;
  }

  lemma LaterShown(cfg: Config, w: nat, ms: seq<Machine>, seen: Seen, k: nat)
    requires w < 2 && 0 < k && k + 1 < |ms| && Shows(cfg, 1 - w, ms[1..], seen, k - 1)
    ensures Shows(cfg, w, ms, seen, k)
  {
    hide Step, Valid;
    assert Mover(w, k) == Mover(1 - w, k - 1);
  }

  lemma MovesOn(cfg: Config, w: nat, ms: seq<Machine>)
    requires Moves(cfg, w, ms) && |ms| > 1
    ensures Moves(cfg, 1 - w, ms[1..])
  {
    hide Step, Valid;
    var rest, v := ms[1..], 1 - w;
    forall k: nat | k + 1 < |rest|
      ensures Move(cfg, v, rest, k)
    {
      assert Move(cfg, w, ms, k + 1);
      assert Mover(w, k + 1) == Mover(v, k);
    }
  }

  lemma NothingToWatch(cfg: Config, m: Machine, w: nat)
    requires Valid(cfg, m) && w < 2
    ensures Watch(cfg, m, w, 0) == []
  {
  }
}
