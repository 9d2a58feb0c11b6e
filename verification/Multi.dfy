/** Two matches interleaved instruction by instruction (src/multi.rs). */
module MultiLane {
  import M = Match
  import opened Redcode
  import opened Configs
  import opened Semantics
  import opened FastEngine
  import opened Engines
  import opened Lanes

  /** Two views that share no buffer. */
  ghost predicate Apart(r0: Run, r1: Run)
  {
    r0.Objects() !! r1.Objects()
  }

  /** The hot loop: warrior 0 of both lanes, then warrior 1 of both, until one
      lane's round ends. `ended` says which, `otherOwes` whether the other lane
      stopped with warrior 1 to move. Each lane's moves are a prefix of its round
      played alone. */
  method Interleave(r0: Run, r1: Run, budget0: nat, budget1: nat)
    returns (ended: nat, outcome: M.Outcome, otherOwes: bool, b0: nat, b1: nat)
    requires r0.Ready() && r0.len[0] > 0 && r0.len[1] > 0
    requires r1.Ready() && r1.len[0] > 0 && r1.len[1] > 0
    requires Apart(r0, r1)
    modifies r0.Objects(), r1.Objects()
    ensures r0.Ready() && r1.Ready() && ended < 2 && b0 <= budget0 && b1 <= budget1
    ensures var whole0, whole1 := old(M.Run(r0.cfg, r0.Abs(), 0, budget0)), old(M.Run(r1.cfg, r1.Abs(), 0, budget1));
            if ended == 0 then Over(r0, outcome, whole0, budget0, b0) && Midway(r1, otherOwes, whole1, budget1, b1)
            else Midway(r0, otherOwes, whole0, budget0, b0) && Over(r1, outcome, whole1, budget1, b1)
  {
    hide Run.Abs, Valid, M.Run, Layout;
    b0, b1 := budget0, budget1;
    ghost var whole0, whole1 := M.Run(r0.cfg, r0.Abs(), 0, budget0), M.Run(r1.cfg, r1.Abs(), 0, budget1);
    Opening(r0, budget0);
    Opening(r1, budget1);
    assert Apart(r1, r0);
    hide Midway, Over, Run.Ready, Apart;
    while true
      invariant r0.Ready() && r1.Ready() && b0 <= budget0 && b1 <= budget1
      invariant Midway(r0, false, whole0, budget0, b0)
      invariant Midway(r1, false, whole1, budget1, b1)
      decreases b0
    {
      var over;
      over, outcome, b0 := TurnBeside(r0, 0, b0, budget0, whole0, r1, false, whole1, budget1, b1);
      if over {
        return 0, outcome, false, b0, b1;
      }
      over, outcome, b1 := TurnBeside(r1, 0, b1, budget1, whole1, r0, true, whole0, budget0, b0);
      if over {
        return 1, outcome, true, b0, b1;
      }
      over, outcome, b0 := TurnBeside(r0, 1, b0, budget0, whole0, r1, true, whole1, budget1, b1);
      if over {
        return 0, outcome, true, b0, b1;
      }
      over, outcome, b1 := TurnBeside(r1, 1, b1, budget1, whole1, r0, false, whole0, budget0, b0);
      if over {
        return 1, outcome, false, b0, b1;
      }
    }
  }

  /** A turn in one lane leaves the other lane where it is. */
  method TurnBeside(r: Run, w: nat, b: nat, ghost budget: nat, ghost whole: M.Played,
                    ghost other: Run, ghost owes: bool, ghost whole': M.Played, ghost budget': nat, ghost at: nat)
    returns (over: bool, outcome: M.Outcome, b': nat)
    requires r.Ready() && w < 2 && b <= budget && Midway(r, w == 1, whole, budget, b)
    requires Apart(r, other) && other.Ready() && at <= budget' && Midway(other, owes, whole', budget', at)
    modifies r.Objects()
    ensures r.Ready() && b' <= b && (!over ==> b' < b)
    ensures if over then Over(r, outcome, whole, budget, b') else Midway(r, w == 0, whole, budget, b')
    ensures other.Ready() && Midway(other, owes, whole', budget', at)
  {
    hide Run.Abs, Valid, M.Run, Layout, Over;
    assert r in r.Objects() && other in other.Objects() && other.core in other.Objects();
    assert forall q :: q in r.qbuf || q in r.pspace ==> q in r.Objects();
    assert forall q :: q in other.qbuf || q in other.pspace ==> q in other.Objects();
    over, outcome, b' := Turn(r, w, b, budget, whole);
    Still(other);
  }

  /** A view stands for the same machine while its own buffers rest. */
  twostate lemma Still(r: Run)
    requires old(r.Ready()) && unchanged(r) && unchanged(r.core) && unchanged(r.lastResult)
    requires forall q :: q in r.qbuf || q in r.pspace ==> unchanged(q)
    ensures r.Ready() && r.Abs() == old(r.Abs())
  {
    hide Valid, Denote;
    assert r.qbuf[0] in r.qbuf && r.qbuf[1] in r.qbuf && r.pspace[0] in r.pspace && r.pspace[1] in r.pspace;
    assert r.core[..] == old(r.core[..]) && r.lastResult[..] == old(r.lastResult[..]);
    assert r.qbuf[0][..] == old(r.qbuf[0][..]) && r.qbuf[1][..] == old(r.qbuf[1][..]);
    assert r.pspace[0][..] == old(r.pspace[0][..]) && r.pspace[1][..] == old(r.pspace[1][..]);
  }

  /** A view whose round, the one `whole` describes, is over after
      `budget - b` instructions. */
  ghost predicate Over(r: Run, outcome: M.Outcome, whole: M.Played, budget: nat, b: nat)
    requires r.Ready() && b <= budget
    reads r, r.core, r.qbuf, r.pspace, r.lastResult
  {
    whole == M.Played(r.Abs(), outcome, budget - b)
  }

  /** A view after `budget - b` instructions of the round `whole` describes,
      warrior 0 (1 when it owes) to move. */
  ghost predicate Midway(r: Run, owes: bool, whole: M.Played, budget: nat, b: nat)
    requires r.Ready() && b <= budget
    reads r, r.core, r.qbuf, r.pspace, r.lastResult
  {
    && r.len[0] > 0 && r.len[1] > 0
    && var p := M.Run(r.cfg, r.Abs(), if owes then 1 else 0, b);
       whole == p.(steps := p.steps + (budget - b))
  }

  lemma Opening(r: Run, budget: nat)
    requires r.Ready() && r.len[0] > 0 && r.len[1] > 0
    ensures Midway(r, false, M.Run(r.cfg, r.Abs(), 0, budget), budget, budget)
  {
  }

  /** One warrior's move in one lane, or the end of its budget. */
  method Turn(r: Run, w: nat, b: nat, ghost budget: nat, ghost whole: M.Played)
    returns (over: bool, outcome: M.Outcome, b': nat)
    requires r.Ready() && w < 2 && b <= budget && Midway(r, w == 1, whole, budget, b)
    modifies r`head, r`len, r.core, r.qbuf, r.pspace, r.lastResult
    ensures r.Ready() && b' <= b && (!over ==> b' < b)
    ensures if over then Over(r, outcome, whole, budget, b') else Midway(r, w == 0, whole, budget, b')
  {
    hide Run.Abs, Valid, M.Run, Layout;
    if b == 0 {
      M.OutOfBudget(r.cfg, r.Abs(), w);
      return true, M.Tie, 0;
    }
    b' := b - 1;
    var alive := r.Move(w, b, M.Run(r.cfg, r.Abs(), w, b));
    over, outcome := !alive, if alive then M.Tie else M.Win(1 - w);
  }

  /** Lanes that share nothing. */
  ghost predicate Separate(l: Lane, k: Lane)
  {
    l.Objects() !! k.Objects()
  }

  /** The jobs two lanes hold and the results so far: every job handed out is
      held by a lane or has the score it has alone, and the instructions of
      finished and held jobs (`c` and `d` by lane) add up. */
  ghost predicate Balanced(plan: Plan, h: Option<nat>, c: nat, k: Option<nat>, d: nat, next: nat, results: seq<M.Score>)
    requires plan.Valid()
  {
    && next <= |plan.jobs| == |results|
    && (h.Some? ==> h.value < next) && (k.Some? ==> k.value < next)
    && (forall j :: 0 <= j < next && h != Some(j) && k != Some(j) ==>
          results[j] == Alone(plan.cfg, plan.jobs[j], plan.rounds).0)
    && (forall j :: next <= j < |plan.jobs| ==> results[j] == M.NOSCORE)
    && c + d == Total(plan.cfg, plan.jobs, plan.rounds, next)
  }

  lemma Rebalance(plan: Plan, h: Option<nat>, c: nat, k: Option<nat>, d: nat, next: nat, results: seq<M.Score>,
                  h': Option<nat>, c': nat, next': nat, results': seq<M.Score>)
    requires plan.Valid() && Balanced(plan, h, c, k, d, next, results)
    requires Handed(plan, h, next, results, h', next', results')
    requires c' + Total(plan.cfg, plan.jobs, plan.rounds, next) == c + Total(plan.cfg, plan.jobs, plan.rounds, next')
    ensures Balanced(plan, h', c', k, d, next', results') && Balanced(plan, k, d, h', c', next', results')
  {
    hide Alone, Total, Plan.Valid;
  }

  /** `Balanced` for the lanes as they are. */
  ghost predicate Fair(plan: Plan, l: Lane, k: Lane, next: nat, results: seq<M.Score>)
    reads l, k
  {
    && plan.Valid() && next <= |plan.jobs| == |results|
    && (l.job.Some? ==> l.job.value < next) && (k.job.Some? ==> k.job.value < next)
    && Balanced(plan, l.job, l.finished + Cost(plan, l.job), k.job, k.finished + Cost(plan, k.job), next, results)
  }

  /** Both lanes idle or about to move warrior 0, and jobs left only while both
      are busy. */
  ghost predicate Steady(plan: Plan, l: Lane, k: Lane, next: nat)
    reads l.Objects(), k.Objects()
  {
    && l.Settled(plan) && k.Settled(plan)
    && (l.job == None || k.job == None ==> next == |plan.jobs| || plan.rounds == 0)
  }

  ghost function Work(plan: Plan, l: Lane, k: Lane, next: nat): int
    reads l, k
  {
    RoundsOf(plan, next) + l.Unplayed(plan) + k.Unplayed(plan)
  }

  /** A lane whose round ended takes its next round or job; then the other pays
      the move it owes. */
  method EndThenSettle(plan: Plan, l: Lane, k: Lane, outcome: M.Outcome, next: nat, results: seq<M.Score>)
    returns (next': nat, results': seq<M.Score>)
    requires Separate(l, k) && l.Ended(plan, outcome) && k.OnTrack(plan) && Fair(plan, l, k, next, results)
    modifies l.Objects(), k.Objects()
    ensures Steady(plan, l, k, next') && Fair(plan, l, k, next', results')
    ensures Work(plan, l, k, next') < old(Work(plan, l, k, next))
  {
    hide Lane.OnTrack, Lane.Ended, Lane.Settled, Handed, Balanced, Cost, Total, Plan.Valid, RoundsOf;
    assert l in l.Objects() && k in k.Objects();
    Busy(plan, l, k, outcome);
    ghost var h, c, g, d := l.job, l.finished + Cost(plan, l.job), k.job, k.finished + Cost(plan, k.job);
    var n, r := l.EndRound(plan, outcome, next, results);
    HandedBounds(plan, h, next, results, l.job, n, r);
    Rebalance(plan, h, c, g, d, next, results, l.job, l.finished + Cost(plan, l.job), n, r);
    ghost var h', c' := l.job, l.finished + Cost(plan, l.job);
    next', results' := k.Settle(plan, n, r);
    HandedBounds(plan, g, n, r, k.job, next', results');
    Rebalance(plan, g, d, h', c', n, r, k.job, k.finished + Cost(plan, k.job), next', results');
  }

  /** The only busy lane plays on to the end of its round. */
  method SingleLeft(plan: Plan, l: Lane, ghost k: Lane, next: nat, results: seq<M.Score>)
    returns (next': nat, results': seq<M.Score>)
    requires Separate(l, k) && Steady(plan, l, k, next) && l.job.Some? && Fair(plan, l, k, next, results)
    modifies l.Objects()
    ensures Fair(plan, l, k, next', results') && unchanged(k)
    ensures l.Settled(plan) && k.Settled(plan) && (l.job == None ==> next' == |plan.jobs| || plan.rounds == 0)
    ensures next <= next'
    ensures Work(plan, l, k, next') < old(Work(plan, l, k, next))
  {
    hide Lane.OnTrack, Handed, Balanced, Cost, Total, Plan.Valid, RoundsOf;
    assert l in l.Objects() && k in k.Objects();
    ghost var h, c, g, d := l.job, l.finished + Cost(plan, l.job), k.job, k.finished + Cost(plan, k.job);
    next', results' := l.Single(plan, next, results);
    HandedBounds(plan, h, next, results, l.job, next', results');
    Rebalance(plan, h, c, g, d, next, results, l.job, l.finished + Cost(plan, l.job), next', results');
  }

  lemma Busy(plan: Plan, l: Lane, k: Lane, outcome: M.Outcome)
    requires l.Ended(plan, outcome) && k.OnTrack(plan)
    ensures plan.Valid() && l.job.Some? && k.job.Some? && l.HasJob(plan) && k.HasJob(plan)
  {
  }

  lemma HandedBounds(plan: Plan, h: Option<nat>, next: nat, results: seq<M.Score>, h': Option<nat>, next': nat,
                     results': seq<M.Score>)
    requires plan.Valid() && Handed(plan, h, next, results, h', next', results') && (h.Some? ==> h.value < next)
    ensures next <= next' <= |plan.jobs| == |results'| && (h'.Some? ==> h'.value < next')
  {
  }

  /** A view on each of two separate lanes. */
  method OpenBoth(l0: Lane, l1: Lane, ghost plan: Plan) returns (r0: Run, r1: Run, ghost m0: Machine, ghost m1: Machine)
    requires Separate(l0, l1) && l0.OnTrack(plan) && !l0.owes && l1.OnTrack(plan) && !l1.owes
    ensures fresh(r0) && r0.Ready() && r0.len[0] > 0 && r0.len[1] > 0 && r0.cfg == plan.cfg && r0.Abs() == m0
    ensures fresh(r1) && r1.Ready() && r1.len[0] > 0 && r1.len[1] > 0 && r1.cfg == plan.cfg && r1.Abs() == m1
    ensures r0 != r1 && Apart(r0, r1) && r0.Objects() <= l0.Objects() + {r0} && r1.Objects() <= l1.Objects() + {r1}
    ensures l0.engine.IsView(r0) && l0.Tracking(plan, m0) && l1.engine.IsView(r1) && l1.Tracking(plan, m1)
    ensures {l0, l1, l0.engine, l1.engine} !! r0.Objects() + r1.Objects()
  {
    hide Lane.OnTrack, Lane.Tracking, Run.Ready, Run.Abs, Run.Objects;
    r0, m0 := l0.Open(plan);
    r1, m1 := l1.Open(plan);
  }

  /** Two lanes that share nothing. */
  method NewLanes(cfg: Config) returns (l: Lane, k: Lane)
    requires cfg.Playable()
    ensures l.Rep(cfg) && l.Idle() && l.finished == 0 && k.Rep(cfg) && k.Idle() && k.finished == 0
    ensures fresh(l.Objects()) && fresh(k.Objects()) && Separate(l, k)
  {
    hide Engine.Rep, Lane.Rep, Lane.Idle;
    l := new Lane(cfg);
    ghost var first := l.Objects();
    k := new Lane(cfg);
    assert first !! k.Objects();
  }

  class Multi {
    const cfg: Config
    const lane0: Lane
    const lane1: Lane
    var steps: nat

    /** Two lanes with engines of their own, neither with a job. */
    ghost predicate Free()
      reads this, lane0.Objects(), lane1.Objects()
    {
      && Separate(lane0, lane1) && this !in lane0.Objects() + lane1.Objects()
      && lane0.Rep(cfg) && lane1.Rep(cfg) && lane0.Idle() && lane1.Idle() && lane0.finished == 0 && lane1.finished == 0
    }

    constructor (cfg: Config)
      requires cfg.Playable()
      ensures this.cfg == cfg && Free() && steps == 0 && fresh(lane0.Objects()) && fresh(lane1.Objects())
    {
      hide Lane.Rep, Lane.Idle;
      var l, k := NewLanes(cfg);
      this.cfg := cfg;
      steps := 0;
      lane0 := l;
      lane1 := k;
    }

    /** Both lanes busy: play them interleaved on views until one lane's round
        ends. */
    method Hot(ghost plan: Plan)
      returns (r0: Run, r1: Run, ended: nat, outcome: M.Outcome, otherOwes: bool, b0: nat, b1: nat,
                                          ghost m0: Machine, ghost m1: Machine)
      requires Separate(lane0, lane1) && this !in lane0.Objects() + lane1.Objects()
      requires lane0.OnTrack(plan) && !lane0.owes && lane1.OnTrack(plan) && !lane1.owes
      modifies lane0.Objects() - {lane0, lane0.engine}, lane1.Objects() - {lane1, lane1.engine}
      ensures ended < 2 && {lane0, lane1, lane0.engine, lane1.engine} !! r0.Objects() + r1.Objects()
      ensures lane0.engine.IsView(r0) && lane1.engine.IsView(r1)
      ensures if ended == 0 then lane0.CarriedOut(plan, r0, outcome, b0, m0)
                && lane1.CarriedOn(plan, r1, otherOwes, b1, m1)
              else lane0.CarriedOn(plan, r0, otherOwes, b0, m0) && lane1.CarriedOut(plan, r1, outcome, b1, m1)
    {
      hide Valid, M.Run, Lane.OnTrack, Lane.Tracking, Run.Ready, Run.Abs, Run.Objects, Lane.Objects, Separate, Apart;
      r0, r1, m0, m1 := OpenBoth(lane0, lane1, plan);
      ended, outcome, otherOwes, b0, b1 := Interleave(r0, r1, lane0.budget, lane1.budget);
    }

    /** The hot loop, and both views' queues kept. The other lane is left where
        it stopped, owing a move or not. */
    method Pair(plan: Plan) returns (ended: nat, outcome: M.Outcome)
      requires Separate(lane0, lane1) && this !in lane0.Objects() + lane1.Objects()
      requires lane0.OnTrack(plan) && !lane0.owes && lane1.OnTrack(plan) && !lane1.owes
      modifies lane0.Objects(), lane1.Objects()
      ensures ended < 2
      ensures if ended == 0 then lane0.Ended(plan, outcome) && lane1.OnTrack(plan)
              else lane1.Ended(plan, outcome) && lane0.OnTrack(plan)
      ensures lane0.job == old(lane0.job) && lane0.round == old(lane0.round) && lane0.finished == old(lane0.finished)
      ensures lane1.job == old(lane1.job) && lane1.round == old(lane1.round) && lane1.finished == old(lane1.finished)
    {
      hide Lane.OnTrack, Lane.Ended, Lane.CarriedOut, Lane.CarriedOn, Run.Objects;
      assert lane0 in lane0.Objects() && lane0.engine in lane0.Objects();
      assert lane1 in lane1.Objects() && lane1.engine in lane1.Objects();
      var r0, r1, otherOwes, b0, b1;
      ghost var m0, m1;
      r0, r1, ended, outcome, otherOwes, b0, b1, m0, m1 := Hot(plan);
      if ended == 0 {
        CloseAndPause(plan, lane0, r0, b0, m0, outcome, lane1, r1, b1, m1, otherOwes);
      } else {
        CloseAndPause(plan, lane1, r1, b1, m1, outcome, lane0, r0, b0, m0, otherOwes);
      }
    }

    /** Every job for `rounds` rounds; scores in job order. Each is the score of
        the job played on its own, and the instructions are those of playing
        them one after another. */
    method PlayAll(jobs: seq<Job>, rounds: nat) returns (results: seq<M.Score>)
      requires Free() && Plan(cfg, jobs, rounds).Valid()
      modifies this, lane0.Objects(), lane1.Objects()
      ensures Free() && |results| == |jobs|
      ensures forall j :: 0 <= j < |jobs| ==> results[j] == Alone(cfg, jobs[j], rounds).0
      ensures AllCount(cfg, jobs, rounds, results)
      ensures steps == old(steps) + Total(cfg, jobs, rounds, |jobs|)
    {
      hide Steady, Fair, Work, Lane.Settled, Lane.OnTrack, Alone, AllCount, ValidJobs, Total, Engine.Rep;
      var plan := Plan(cfg, jobs, rounds);
      var next;
      next, results := Begin(plan);
      ghost var before := steps;
      while lane0.job.Some? || lane1.job.Some?
        invariant Separate(lane0, lane1) && this !in lane0.Objects() + lane1.Objects() && steps == before
        invariant Steady(plan, lane0, lane1, next) && Fair(plan, lane0, lane1, next, results)
        decreases Work(plan, lane0, lane1, next)
      {
        next, results := Turns(plan, next, results);
      }
      AllPlayed(plan, lane0, lane1, next, results);
      AllCounted(cfg, jobs, rounds, results);
      var n := TakeBoth();
      steps := steps + n;
    }

    /** The instruction counts of both engines, reset. */
    method TakeBoth() returns (n: nat)
      requires Separate(lane0, lane1) && this !in lane0.Objects() + lane1.Objects()
      requires lane0.Rep(cfg) && lane1.Rep(cfg) && lane0.Idle() && lane1.Idle()
      modifies lane0.Objects(), lane1.Objects()
      ensures Free() && n == old(lane0.finished) + old(lane1.finished)
    {
      hide Layout, Engine.Abs;
      var n0 := lane0.TakeSteps();
      var n1 := lane1.TakeSteps();
      n := n0 + n1;
    }

    /** Both lanes take a job. */
    method Begin(plan: Plan) returns (next: nat, results: seq<M.Score>)
      requires Free() && plan.Valid() && plan.cfg == cfg
      modifies lane0.Objects(), lane1.Objects()
      ensures Steady(plan, lane0, lane1, next) && Fair(plan, lane0, lane1, next, results)
    {
      hide Lane.OnTrack, Lane.Ended, Handed, Balanced, Cost, Total, RoundsOf, Plan.Valid, Engine.Rep, Lane.Settled;
      hide Lane.Left, Alone;
      results := seq(|plan.jobs|, _ => M.NOSCORE);
      NothingHandedOut(plan, results);
      assert lane0 in lane0.Objects() && lane1 in lane1.Objects();
      var n, r := lane0.StartJob(plan, 0, results);
      HandedBounds(plan, None, 0, results, lane0.job, n, r);
      Rebalance(plan, None, 0, None, 0, 0, results, lane0.job, lane0.finished + Cost(plan, lane0.job), n, r);
      ghost var h, c := lane0.job, lane0.finished + Cost(plan, lane0.job);
      next, results := lane1.StartJob(plan, n, r);
      HandedBounds(plan, None, n, r, lane1.job, next, results);
      Rebalance(plan, None, 0, h, c, n, r, lane1.job, lane1.finished + Cost(plan, lane1.job), next, results);
    }

    /** One turn of the main loop: at least one round is finished. */
    method Turns(plan: Plan, next: nat, results: seq<M.Score>) returns (next': nat, results': seq<M.Score>)
      requires Separate(lane0, lane1) && this !in lane0.Objects() + lane1.Objects()
      requires Steady(plan, lane0, lane1, next) && Fair(plan, lane0, lane1, next, results)
      requires lane0.job.Some? || lane1.job.Some?
      modifies lane0.Objects(), lane1.Objects()
      ensures Steady(plan, lane0, lane1, next') && Fair(plan, lane0, lane1, next', results')
      ensures Work(plan, lane0, lane1, next') < old(Work(plan, lane0, lane1, next))
      ensures old(Work(plan, lane0, lane1, next)) > 0
    {
      hide Lane.Settled, Lane.OnTrack, Balanced, RoundsOf, Plan.Valid, Cost;
      WorkPositive(plan, lane0, lane1, next, results);
      if lane0.job.Some? && lane1.job.Some? {
        next', results' := BothBusy(plan, next, results);
      } else if lane0.job.Some? {
        next', results' := SingleLeft(plan, lane0, lane1, next, results);
      } else {
        Swap(plan, lane0, lane1, next, results);
        next', results' := SingleLeft(plan, lane1, lane0, next, results);
        Swap(plan, lane1, lane0, next', results');
      }
    }

    method BothBusy(plan: Plan, next: nat, results: seq<M.Score>) returns (next': nat, results': seq<M.Score>)
      requires Separate(lane0, lane1) && this !in lane0.Objects() + lane1.Objects()
      requires Steady(plan, lane0, lane1, next) && Fair(plan, lane0, lane1, next, results)
      requires lane0.job.Some? && lane1.job.Some?
      modifies lane0.Objects(), lane1.Objects()
      ensures Steady(plan, lane0, lane1, next') && Fair(plan, lane0, lane1, next', results')
      ensures Work(plan, lane0, lane1, next') < old(Work(plan, lane0, lane1, next))
    {
      hide Lane.OnTrack, Lane.Ended, Balanced, RoundsOf, Plan.Valid, Cost;
      var ended, outcome := Pair(plan);
      if ended == 0 {
        next', results' := EndThenSettle(plan, lane0, lane1, outcome, next, results);
      } else {
        Swap(plan, lane0, lane1, next, results);
        next', results' := EndThenSettle(plan, lane1, lane0, outcome, next, results);
        Swap(plan, lane1, lane0, next', results');
      }
    }
  }

  lemma Swap(plan: Plan, l: Lane, k: Lane, next: nat, results: seq<M.Score>)
    requires Fair(plan, l, k, next, results)
    ensures Fair(plan, k, l, next, results)
  {
    hide Plan.Valid, Alone, Total, Cost;
  }

  lemma WorkPositive(plan: Plan, l: Lane, k: Lane, next: nat, results: seq<M.Score>)
    requires Steady(plan, l, k, next) && Fair(plan, l, k, next, results) && (l.job.Some? || k.job.Some?)
    ensures Work(plan, l, k, next) > 0
  {
    hide Lane.Settled, Balanced, RoundsOf, Plan.Valid, Cost;
    SettledHasJob(plan, l);
    SettledHasJob(plan, k);
    RoundsNonNegative(plan, next);
  }

  lemma RoundsNonNegative(plan: Plan, next: nat)
    requires next <= |plan.jobs|
    ensures RoundsOf(plan, next) >= 0
  {
  }

  lemma SettledHasJob(plan: Plan, l: Lane)
    requires l.Settled(plan)
    ensures l.job.Some? ==> l.HasJob(plan)
  {
    hide Engine.Rep, Lane.TracksFrom;
  }

  lemma NothingHandedOut(plan: Plan, results: seq<M.Score>)
    requires plan.Valid() && results == seq(|plan.jobs|, _ => M.NOSCORE)
    ensures Balanced(plan, None, 0, None, 0, 0, results) && Cost(plan, None) == 0
  {
  }

  /** With both lanes idle every job has its score, and every instruction is
      counted. */
  lemma AllPlayed(plan: Plan, l: Lane, k: Lane, next: nat, results: seq<M.Score>)
    requires Steady(plan, l, k, next) && Fair(plan, l, k, next, results) && l.job == None && k.job == None
    ensures plan.Valid() && |results| == |plan.jobs| && l.Rep(plan.cfg) && k.Rep(plan.cfg) && l.Idle() && k.Idle()
    ensures forall j :: 0 <= j < |plan.jobs| ==> results[j] == Alone(plan.cfg, plan.jobs[j], plan.rounds).0
    ensures l.finished + k.finished == Total(plan.cfg, plan.jobs, plan.rounds, |plan.jobs|)
  {
    hide Engine.Rep, Alone, Total;
    if plan.rounds == 0 {
      forall j | 0 <= j < |plan.jobs|
        ensures Alone(plan.cfg, plan.jobs[j], plan.rounds) == (M.NOSCORE, 0)
      {
        NoRounds(plan, j);
      }
      NoInstructions(plan, next);
      NoInstructions(plan, |plan.jobs|);
    }
  }

  lemma NoRounds(plan: Plan, j: nat)
    requires plan.Valid() && plan.rounds == 0 && j < |plan.jobs|
    ensures Alone(plan.cfg, plan.jobs[j], 0) == (M.NOSCORE, 0)
  {
  }

  lemma {:induction false} NoInstructions(plan: Plan, n: nat)
    requires plan.Valid() && plan.rounds == 0 && n <= |plan.jobs|
    ensures Total(plan.cfg, plan.jobs, 0, n) == 0
  {
    if n > 0 {
      NoInstructions(plan, n - 1);
      NoRounds(plan, n - 1);
    }
  }

  /** Park both views: lane `l` at the end of its round, lane `k` midway. */
  method CloseAndPause(plan: Plan, l: Lane, r: Run, b: nat, ghost m: Machine, outcome: M.Outcome,
                       k: Lane, s: Run, d: nat, ghost n: Machine, owes: bool)
    requires Separate(l, k) && l in l.Objects() && l.engine in l.Objects() && k in k.Objects()
    requires k.engine in k.Objects()
    requires {l, k, l.engine, k.engine} !! r.Objects() + s.Objects()
    requires l.CarriedOut(plan, r, outcome, b, m) && k.CarriedOn(plan, s, owes, d, n)
    modifies l`budget, l`executed, l.engine`head, l.engine`len, k`budget, k`executed, k`owes, k.engine`head,
        k.engine`len
    ensures l.Ended(plan, outcome) && k.OnTrack(plan)
  {
    hide Lane.OnTrack, Lane.Ended, Lane.CarriedOut, Lane.CarriedOn;
    assert l != k && l.engine != k.engine;
    assert k !in r.Objects() && k.engine !in r.Objects();
    k.Pause(plan, s, owes, d, n);
    l.Close(plan, r, outcome, b, m);
  }
}
