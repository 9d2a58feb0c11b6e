/** One lane of the interleaving scheduler (src/multi.rs:29-43, 92-230): an
    engine in the middle of a match, and the jobs it takes next. */
module Lanes {
  import Rng
  import M = Match
  import S = Scores
  import opened Redcode
  import opened Configs
  import opened Semantics
  import opened FastEngine
  import opened Engines

  /** One match to play. */
  datatype Job = Job(a: Compiled, b: Compiled, seed: int)

  predicate ValidJobs(cfg: Config, jobs: seq<Job>) {
    forall j :: 0 <= j < |jobs| ==> Fit(cfg, jobs[j].a, jobs[j].b) && Rng.Int32(jobs[j].seed)
  }

  /** The score of a job played on its own, and its instructions. */
  function Alone(cfg: Config, job: Job, rounds: nat): (M.Score, nat)
    requires Fit(cfg, job.a, job.b) && Rng.Int32(job.seed)
  {
    M.Result(cfg, Unpack(job.a), Unpack(job.b), rounds, job.seed)
  }

  /** It counts the rounds each of the job's warriors won and those nobody won, and
      all instructions of its rounds. */
  lemma AloneCounts(cfg: Config, job: Job, rounds: nat)
    requires Fit(cfg, job.a, job.b) && Rng.Int32(job.seed)
    ensures var (score, n), a, b := Alone(cfg, job, rounds), Unpack(job.a), Unpack(job.b);
            && S.Counts(cfg, a, b, rounds, job.seed, score) && score.w1 + score.w2 + score.ties == rounds
            && n == S.Instructed(cfg, a, b, job.seed, 0, rounds)
  {
    hide Unpack, M.Play, S.Counts, S.Instructed;
    S.PlayCounts(cfg, M.Blank(cfg), Unpack(job.a), Unpack(job.b), rounds, job.seed);
  }

  /** Every job's score does. */
  ghost predicate AllCount(cfg: Config, jobs: seq<Job>, rounds: nat, results: seq<M.Score>)
    requires ValidJobs(cfg, jobs)
  {
    && |results| == |jobs|
    && forall j :: 0 <= j < |jobs| ==>
         S.Counts(cfg, Unpack(jobs[j].a), Unpack(jobs[j].b), rounds, jobs[j].seed, results[j])
  }

  lemma AllCounted(cfg: Config, jobs: seq<Job>, rounds: nat, results: seq<M.Score>)
    requires ValidJobs(cfg, jobs) && |results| == |jobs|
    requires forall j :: 0 <= j < |jobs| ==> results[j] == Alone(cfg, jobs[j], rounds).0
    ensures AllCount(cfg, jobs, rounds, results)
  {
    hide Unpack, Alone, S.Counts;
    forall j | 0 <= j < |jobs|
      ensures S.Counts(cfg, Unpack(jobs[j].a), Unpack(jobs[j].b), rounds, jobs[j].seed, results[j])
    {
      AloneCounts(cfg, jobs[j], rounds);
    }
  }

  /** The instructions of the first `n` jobs played one after another. */
  function Total(cfg: Config, jobs: seq<Job>, rounds: nat, n: nat): nat
    requires ValidJobs(cfg, jobs) && n <= |jobs|
  {
    if n == 0 then 0 else Total(cfg, jobs, rounds, n - 1) + Alone(cfg, jobs[n - 1], rounds).1
  }

  /** What is left of a match when round `round` has ended in `m` with `o`. */
  function Later(cfg: Config, job: Job, m: Machine, o: M.Outcome, round: nat, rounds: nat, seed: int,
                 score: M.Score): (M.Score, nat)
    requires Fit(cfg, job.a, job.b) && Rng.Int32(seed) && round < rounds && Valid(cfg, m) && (o.Win? ==> o.w < 2)
  {
    M.FinishKeepsValidIff(cfg, m, o);
    var q := M.Rounds(cfg, M.Finish(m, o), Unpack(job.a), Unpack(job.b), round + 1, rounds, seed, M.Count(score, o));
    (q.score, q.steps)
  }

  /** What is left of a match in the middle of round `round`. */
  function Now(cfg: Config, job: Job, m: Machine, mover: nat, budget: nat, round: nat, rounds: nat, seed: int,
               score: M.Score): (M.Score, nat)
    requires Fit(cfg, job.a, job.b) && Rng.Int32(seed) && round < rounds && Valid(cfg, m) && mover < 2
  {
    var p := M.Run(cfg, m, mover, budget);
    var l := Later(cfg, job, p.m, p.outcome, round, rounds, seed, score);
    (l.0, p.steps + l.1)
  }

  /** The jobs and the number of rounds, which never change. */
  datatype Plan = Plan(cfg: Config, jobs: seq<Job>, rounds: nat)
  {
    predicate Valid() {
      cfg.Playable() && ValidJobs(cfg, jobs)
    }
  }

  class Lane {
    const engine: Engine
    var job: Option<nat>
    var round: nat
    var seed: int
    var score: M.Score
    /** Instructions left before the round is a tie, and those executed. */
    var budget: nat
    var executed: nat
    /** Warrior 1 moves next. */
    var owes: bool
    /** The instructions of the jobs this lane has finished. */
    ghost var finished: nat

    ghost predicate Rep(cfg: Config)
      reads Objects()
    {
      engine.cfg == cfg && engine.Rep()
    }

    ghost function Objects(): set<object>
    {
      {this, engine, engine.core, engine.lastResult} + (set q | q in engine.qbuf) + (set p | p in engine.pspace)
    }

    /** No job: every instruction counted belongs to a finished one. */
    ghost predicate Idle()
      reads Objects()
    {
      job == None && engine.steps == finished
    }

    /** A round is loaded and both warriors live. */
    ghost predicate Loaded(plan: Plan)
      reads Objects()
    {
      && plan.Valid() && Rep(plan.cfg) && Valid(plan.cfg, engine.Abs())
      && engine.len[0] > 0 && engine.len[1] > 0
      && HasJob(plan)
    }

    ghost predicate HasJob(plan: Plan)
      reads this
    {
      job.Some? && job.value < |plan.jobs| && round < plan.rounds && Rng.Int32(seed)
    }

    /** The lane is a prefix of its job played alone: finishing from here gives
        that job's score, and its instructions with those already counted. */
    ghost predicate OnTrack(plan: Plan)
      reads Objects()
    {
      Loaded(plan) && finished <= engine.steps && TracksFrom(plan, engine.Abs(), if owes then 1 else 0)
    }

    /** Finishing the round from machine `m` with `mover` to move, and the match
        after it, gives the job's score alone and its instructions. */
    ghost predicate TracksFrom(plan: Plan, m: Machine, mover: nat)
      requires plan.Valid() && HasJob(plan) && Valid(plan.cfg, m) && mover < 2 && finished <= engine.steps
      reads this, engine
    {
      var j := plan.jobs[job.value];
      var now := Now(plan.cfg, j, m, mover, budget, round, plan.rounds, seed, score);
      Alone(plan.cfg, j, plan.rounds) == (now.0, engine.steps - finished + executed + now.1)
    }

    /** The lane's round has ended with `o`. */
    ghost predicate Ended(plan: Plan, o: M.Outcome)
      reads Objects()
    {
      && plan.Valid() && Rep(plan.cfg) && Valid(plan.cfg, engine.Abs()) && HasJob(plan)
      && (o.Win? ==> o.w < 2) && finished <= engine.steps
      && var j := plan.jobs[job.value];
         var later := Later(plan.cfg, j, engine.Abs(), o, round, plan.rounds, seed, score);
         Alone(plan.cfg, j, plan.rounds) == (later.0, engine.steps - finished + executed + later.1)
    }

    /** Idle, or on track with warrior 0 to move. */
    ghost predicate Settled(plan: Plan)
      reads Objects()
    {
      if job == None then Rep(plan.cfg) && Idle() else OnTrack(plan) && !owes
    }

    constructor (cfg: Config)
      requires cfg.Playable()
      ensures Rep(cfg) && Idle() && finished == 0
      ensures fresh(Objects() - {this})
    {
      engine := new Engine(cfg);
      job, round, seed, score := None, 0, 0, M.NOSCORE;
      budget, executed, owes := 0, 0, false;
      finished := 0;
    }

    // ---- the state machine of a lane ----

    /** Rounds of the job in progress still to play, the current one included. */
    ghost function Unplayed(plan: Plan): int
      reads this
    {
      if job == None then 0 else plan.rounds - round
    }

    /** With those of the jobs from `next` on. */
    ghost function Left(plan: Plan, next: nat): int
      reads this
    {
      RoundsOf(plan, next) + Unplayed(plan)
    }

    /** The lane after it took jobs from `next` on, having held `held`: settled,
        results and instruction counts accounted for. */
    ghost predicate After(plan: Plan, held: Option<nat>, before: nat, next: nat, results: seq<M.Score>, next': nat,
                          results': seq<M.Score>)
      requires plan.Valid() && (held.Some? ==> held.value < |plan.jobs|)
      reads Objects()
    {
      && Settled(plan) && Handed(plan, held, next, results, job, next', results')
      && (job.Some? ==> job.value < |plan.jobs|)
      && finished + Cost(plan, job) + Total(plan.cfg, plan.jobs, plan.rounds, next)
         == before + Cost(plan, held) + Total(plan.cfg, plan.jobs, plan.rounds, next')
      && (job == None ==> next' == |plan.jobs| || plan.rounds == 0)
    }

    method StartJob(plan: Plan, next: nat, results: seq<M.Score>) returns (next': nat, results': seq<M.Score>)
      requires plan.Valid() && Rep(plan.cfg) && engine.steps == finished
      requires next <= |plan.jobs| == |results|
      modifies Objects()
      ensures After(plan, None, old(finished), next, results, next', results')
      ensures Left(plan, next') <= RoundsOf(plan, next)
      decreases |plan.jobs| - next, 0, 9
    {
      hide Alone, Total, ValidPspace, M.Rounds, RoundsOf, Layout, Engine.Abs, Handed, OnTrack;
      if next >= |plan.jobs| || plan.rounds == 0 {
        HandedNothing(plan, next, results);
        job := None;
        return next, results;
      }
      BeginJob(plan, next);
      RoundsStep(plan, next);
      ghost var before, j := finished, next;
      next', results' := StartRound(plan, next + 1, results);
      AfterFirst(plan, j, before, results, next', results');
    }

    /** Job `j` before its first round. */
    method BeginJob(plan: Plan, j: nat)
      requires plan.Valid() && Rep(plan.cfg) && j < |plan.jobs| && plan.rounds > 0
      modifies Objects()
      ensures Rep(plan.cfg) && HasJob(plan) && ValidPspace(plan.cfg, engine.Abs())
      ensures job == Some(j) && round == 0 && finished == old(finished) && engine.steps == old(engine.steps)
      ensures var j := plan.jobs[j];
              var q := M.Rounds(plan.cfg, engine.Abs(), Unpack(j.a), Unpack(j.b), 0, plan.rounds, seed, score);
              Alone(plan.cfg, j, plan.rounds) == (q.score, q.steps)
    {
      hide Alone, ValidPspace, M.Rounds, M.BeginMatch, Layout, Engine.Abs, Fit;
      ghost var m := engine.Abs();
      engine.BeginMatch(plan.jobs[j].a, plan.jobs[j].b);
      job := Some(j);
      round := 0;
      seed := plan.jobs[j].seed;
      score := M.NOSCORE;
      FreshMatch(plan, j, m);
    }

    /** A job taken from the jobs left is one more of them accounted for. */
    lemma AfterFirst(plan: Plan, j: nat, before: nat, results: seq<M.Score>, next': nat, results': seq<M.Score>)
      requires plan.Valid() && j < |plan.jobs| && After(plan, Some(j), before, j + 1, results, next', results')
      ensures After(plan, None, before, j, results, next', results')
    {
      hide Alone, Total, Settled, Handed;
      TotalStep(plan, j);
      HandedFirst(plan, j, results, job, next', results');
    }

    method StartRound(plan: Plan, next: nat, results: seq<M.Score>) returns (next': nat, results': seq<M.Score>)
      requires plan.Valid() && Rep(plan.cfg) && HasJob(plan) && finished <= engine.steps
      requires job.value < next <= |plan.jobs| == |results| && ValidPspace(plan.cfg, engine.Abs())
      requires var j := plan.jobs[job.value];
               var q := M.Rounds(plan.cfg, engine.Abs(), Unpack(j.a), Unpack(j.b), round, plan.rounds, seed, score);
               Alone(plan.cfg, j, plan.rounds) == (q.score, engine.steps - finished + q.steps)
      modifies Objects()
      ensures After(plan, old(job), old(finished), next, results, next', results')
      ensures Left(plan, next') <= old(Left(plan, next))
      decreases |plan.jobs| - next, plan.rounds - round, 3
    {
      hide Alone, Total, ValidPspace, M.Rounds, Handed, RoundsOf, Layout, Engine.Abs, OnTrack;
      LoadRound(plan);
      next', results' := Settle(plan, next, results);
    }

    /** The round loaded, its first move to come. */
    method LoadRound(plan: Plan)
      requires plan.Valid() && Rep(plan.cfg) && HasJob(plan) && finished <= engine.steps
      requires ValidPspace(plan.cfg, engine.Abs())
      requires var j := plan.jobs[job.value];
               var q := M.Rounds(plan.cfg, engine.Abs(), Unpack(j.a), Unpack(j.b), round, plan.rounds, seed, score);
               Alone(plan.cfg, j, plan.rounds) == (q.score, engine.steps - finished + q.steps)
      modifies Objects()
      ensures OnTrack(plan) && owes == (round % 2 == 1)
      ensures job == old(job) && round == old(round) && finished == old(finished)
    {
      hide Alone, Valid, ValidPspace, M.Load, M.Rounds, M.Position, Now, Rng.Next, Layout, Engine.Abs, Fit;
      hide Engine.Rep, Unpack, Config.Playable;
      ghost var was := engine.Abs();
      PlaceRound(plan);
      RoundOpens(plan.cfg, plan.jobs[job.value], was, round, plan.rounds, seed, score);
      seed := Rng.Next(seed);
      budget := plan.cfg.maxCycles * 2;
      executed := 0;
      owes := round % 2 == 1;
    }

    /** The round's warriors in the core, the second where the seed says. */
    method PlaceRound(plan: Plan)
      requires plan.Valid() && Rep(plan.cfg) && HasJob(plan) && ValidPspace(plan.cfg, engine.Abs())
      modifies Objects() - {this}
      ensures Rep(plan.cfg) && Valid(plan.cfg, engine.Abs()) && engine.len[0] > 0 && engine.len[1] > 0
      ensures var j := plan.jobs[job.value];
              engine.Abs() == M.Load(plan.cfg, old(engine.Abs()), Unpack(j.a), Unpack(j.b), 0,
                  M.Position(plan.cfg, seed))
      ensures engine.steps == old(engine.steps)
    {
      hide Valid, ValidPspace, M.Load, M.Position, Layout, Engine.Abs, Fit, Rng.Next;
      var pos := engine.Draw(seed);
      var current := plan.jobs[job.value];
      engine.StartRound(current.a, current.b, 0, pos);
    }

    /** Pay the move of warrior 1 that is owed, finishing rounds as needed. */
    method Settle(plan: Plan, next: nat, results: seq<M.Score>) returns (next': nat, results': seq<M.Score>)
      requires plan.Valid() && next <= |plan.jobs| == |results|
      requires if job == None then Rep(plan.cfg) && Idle()
                 && (next == |plan.jobs| || plan.rounds == 0) else OnTrack(plan) && job.value < next
      modifies Objects()
      ensures After(plan, old(job), old(finished), next, results, next', results')
      ensures Left(plan, next') <= old(Left(plan, next))
      decreases |plan.jobs| - next, if job == None then 0 else plan.rounds - round, 2
    {
      hide Alone, Total, OnTrack, Ended, RoundsOf;
      if !owes || job == None {
        return next, results;
      }
      var over := PayMove(plan);
      if over.Some? {
        next', results' := EndRound(plan, over.value, next, results);
      } else {
        return next, results;
      }
    }

    /** The owed move itself: the round is over, or warrior 0 moves next. */
    method PayMove(plan: Plan) returns (over: Option<M.Outcome>)
      requires OnTrack(plan) && owes
      modifies this`owes, this`budget, this`executed, engine, engine.core, engine.qbuf, engine.pspace, engine.lastResult
      ensures if over.Some? then Ended(plan, over.value) else OnTrack(plan) && !owes
    {
      hide Alone, Valid, M.Run, Later, Now, Layout, Engine.Abs, Run.Abs, Fit;
      ghost var j, m, left := plan.jobs[job.value], engine.Abs(), budget;
      owes := false;
      ghost var whole := M.Run(plan.cfg, m, 1, left);
      if budget == 0 {
        M.OutOfBudget(plan.cfg, m, 1);
        NowOver(plan.cfg, j, m, 1, left, m, M.Tie, 0, round, plan.rounds, seed, score);
        return Some(M.Tie);
      }
      budget := budget - 1;
      executed := executed + 1;
      var alive := ViewMovePark(plan.cfg, left, whole);
      if alive {
        NowAdvances(plan.cfg, j, m, 1, left, engine.Abs(), 0, budget, 1, round, plan.rounds, seed, score);
        over := None;
      } else {
        NowOver(plan.cfg, j, m, 1, left, engine.Abs(), M.Win(0), 1, round, plan.rounds, seed, score);
        over := Some(M.Win(0));
      }
    }

    /** Finish the current round without interleaving, then go on as far as the
        next round's first move. */
    method Single(plan: Plan, next: nat, results: seq<M.Score>) returns (next': nat, results': seq<M.Score>)
      requires OnTrack(plan) && !owes && job.value < next <= |plan.jobs| == |results|
      modifies Objects()
      ensures After(plan, old(job), old(finished), next, results, next', results')
      ensures Left(plan, next') < old(Left(plan, next))
    {
      hide Alone, Valid, M.Run, Later, Now, Layout, Engine.Abs, Run.Abs, Fit, Total, Handed, RoundsOf;
      ghost var j, m, left := plan.jobs[job.value], engine.Abs(), budget;
      var outcome, steps := ViewRunPark(plan.cfg);
      NowOver(plan.cfg, j, m, 0, left, engine.Abs(), outcome, steps, round, plan.rounds, seed, score);
      executed := executed + steps;
      budget := budget - steps;
      next', results' := EndRound(plan, outcome, next, results);
    }

    /** From machine `m` with warrior 0 to move this lane tracks its job. */
    ghost predicate Tracking(plan: Plan, m: Machine)
      reads this, engine
    {
      && plan.Valid() && engine.cfg == plan.cfg && engine.Fixed() && HasJob(plan) && Valid(plan.cfg, m)
      && finished <= engine.steps && TracksFrom(plan, m, 0)
    }

    /** View `r` carries the round on from `m`; `b` instructions are left of the
        budget. */
    ghost predicate Carried(plan: Plan, r: Run, b: nat, m: Machine)
      reads {this, engine} + r.Objects()
    {
      Tracking(plan, m) && b <= budget && r.Ready() && engine.IsView(r)
    }

    /** A view to carry the round on. */
    method Open(ghost plan: Plan) returns (r: Run, ghost m: Machine)
      requires OnTrack(plan) && !owes
      ensures fresh(r) && r.Ready() && r.len[0] > 0 && r.len[1] > 0 && r.cfg == plan.cfg && r.Abs() == m
      ensures engine.IsView(r) && Tracking(plan, m) && r.Objects() <= Objects() + {r}
      ensures this in Objects() && engine in Objects() && this !in r.Objects() && engine !in r.Objects()
    {
      hide Valid, Layout, Engine.Abs, Run.Abs, Now, Alone;
      m := engine.Abs();
      r := engine.View();
    }

    ghost predicate CarriedOut(plan: Plan, r: Run, outcome: M.Outcome, b: nat, m: Machine)
      reads {this, engine} + r.Objects()
    {
      Carried(plan, r, b, m) && M.Run(plan.cfg, m, 0, budget) == M.Played(r.Abs(), outcome, budget - b)
    }

    ghost predicate CarriedOn(plan: Plan, r: Run, stillOwes: bool, b: nat, m: Machine)
      reads {this, engine} + r.Objects()
    {
      && Carried(plan, r, b, m) && r.len[0] > 0 && r.len[1] > 0
      && var p := M.Run(plan.cfg, r.Abs(), if stillOwes then 1 else 0, b);
         M.Run(plan.cfg, m, 0, budget) == p.(steps := p.steps + (budget - b))
    }

    /** Keep the queues of a view whose round is over, and count its
        instructions. */
    method Close(plan: Plan, r: Run, outcome: M.Outcome, b: nat, ghost m: Machine)
      requires CarriedOut(plan, r, outcome, b, m)
      modifies this`budget, this`executed, engine`head, engine`len
      ensures Ended(plan, outcome)
    {
      hide Alone, Valid, M.Run, Later, Now, Layout, Engine.Abs, Run.Abs, Fit;
      ghost var j := plan.jobs[job.value];
      NowOver(plan.cfg, j, m, 0, budget, r.Abs(), outcome, budget - b, round, plan.rounds, seed, score);
      engine.Park(r);
      executed := executed + (budget - b);
      budget := b;
    }

    /** What is left of a round stopped in its middle. */
    lemma CarriedTracks(plan: Plan, r: Run, stillOwes: bool, b: nat, m: Machine)
      requires CarriedOn(plan, r, stillOwes, b, m)
      ensures Carried(plan, r, b, m) && plan.Valid() && engine.cfg == plan.cfg && engine.Fixed() && HasJob(plan)
      ensures Valid(plan.cfg, r.Abs()) && finished <= engine.steps && r.len[0] > 0 && r.len[1] > 0
      ensures var j := plan.jobs[job.value];
              var now := Now(plan.cfg, j, r.Abs(), if stillOwes then 1 else 0, b, round, plan.rounds, seed, score);
              Alone(plan.cfg, j, plan.rounds) == (now.0, engine.steps - finished + executed + (budget - b) + now.1)
    {
      hide Alone, Valid, M.Run, Later, Now, Layout, Engine.Abs, Run.Abs, Fit;
      NowAdvances(plan.cfg, plan.jobs[job.value], m, 0, budget, r.Abs(), if stillOwes then 1 else 0, b, budget - b,
          round, plan.rounds, seed, score);
    }

    /** Keep the queues of a view stopped in the middle of its round. */
    method Pause(plan: Plan, r: Run, stillOwes: bool, b: nat, ghost m: Machine)
      requires CarriedOn(plan, r, stillOwes, b, m)
      modifies this`budget, this`executed, this`owes, engine`head, engine`len
      ensures OnTrack(plan) && owes == stillOwes
    {
      hide Alone, Valid, Now, Layout, Engine.Abs, Run.Abs, Fit, CarriedOn, Tracking;
      CarriedTracks(plan, r, stillOwes, b, m);
      engine.Park(r);
      executed := executed + (budget - b);
      budget := b;
      owes := stillOwes;
    }

    /** The rest of the round, played on a view whose queues are kept. */
    method ViewRunPark(ghost cfg: Config) returns (outcome: M.Outcome, steps: nat)
      requires Rep(cfg) && Valid(cfg, engine.Abs()) && engine.len[0] > 0 && engine.len[1] > 0
      modifies engine`head, engine`len, engine.core, engine.qbuf, engine.pspace, engine.lastResult
      ensures Rep(cfg) && Valid(cfg, engine.Abs())
      ensures M.Played(engine.Abs(), outcome, steps) == M.Run(cfg, old(engine.Abs()), 0, budget)
    {
      hide Valid, M.Run, Layout, Engine.Abs, Run.Abs;
      var run := engine.View();
      outcome, steps := run.Battle(budget, 0);
      engine.Park(run);
    }

    /** Warrior 1's move, played on a view whose queues are kept. */
    method ViewMovePark(ghost cfg: Config, ghost left: nat, ghost whole: M.Played) returns (alive: bool)
      requires Rep(cfg) && Valid(cfg, engine.Abs()) && engine.len[0] > 0 && engine.len[1] > 0
      requires left > 0 && whole == M.Run(cfg, engine.Abs(), 1, left)
      modifies engine`head, engine`len, engine.core, engine.qbuf, engine.pspace, engine.lastResult
      ensures Rep(cfg) && Valid(cfg, engine.Abs()) && (alive ==> engine.len[0] > 0 && engine.len[1] > 0)
      ensures if !alive then whole == M.Played(engine.Abs(), M.Win(0), 1)
              else var r := M.Run(cfg, engine.Abs(), 0, left - 1); whole == r.(steps := r.steps + 1)
    {
      hide Valid, M.Run, Layout, Engine.Abs, Run.Abs;
      var run := engine.View();
      alive := run.Move(1, left, whole);
      engine.Park(run);
    }

    method EndRound(plan: Plan, outcome: M.Outcome, next: nat, results: seq<M.Score>)
      returns (next': nat, results': seq<M.Score>)
      requires Ended(plan, outcome) && job.value < next <= |plan.jobs| == |results|
      modifies Objects()
      ensures After(plan, old(job), old(finished), next, results, next', results')
      ensures Left(plan, next') < old(Left(plan, next))
      decreases |plan.jobs| - next, plan.rounds - round, 1
    {
      hide Alone, Total, Valid, ValidPspace, M.Rounds, M.Finish, RoundsOf, Layout, Engine.Abs, Handed;
      ghost var j, m := plan.jobs[job.value], engine.Abs();
      NothingLater(plan.cfg, j, m, outcome, round, plan.rounds, seed, score);
      M.FinishKeepsValidIff(plan.cfg, m, outcome);
      ValidHasPspace(plan.cfg, M.Finish(m, outcome));
      engine.FinishRound(outcome, executed);
      score := M.Count(score, outcome);
      round := round + 1;
      if round == plan.rounds {
        results' := results[job.value := score];
        ghost var held := job;
        ghost var filled := results';
        finished := engine.steps;
        next', results' := StartJob(plan, next, results');
        HandedAfterFinish(plan, held, next, results, filled, job, next', results');
      } else {
        next', results' := StartRound(plan, next, results);
      }
    }

    /** Hand over the instructions counted so far. */
    method TakeSteps() returns (n: nat)
      requires Idle()
      modifies engine`steps, this`finished
      ensures n == old(finished) && finished == 0 && Idle()
    {
      n := engine.steps;
      engine.steps := 0;
      finished := 0;
    }
  }

  lemma ValidHasPspace(cfg: Config, m: Machine)
    requires Valid(cfg, m)
    ensures ValidPspace(cfg, m)
  {
  }

  /** A job just begun is all still to play. */
  lemma FreshMatch(plan: Plan, j: nat, m: Machine)
    requires plan.Valid() && j < |plan.jobs|
    ensures var job := plan.jobs[j];
            var begun := M.BeginMatch(plan.cfg, m, Unpack(job.a), Unpack(job.b));
            var q := M.Rounds(plan.cfg, begun, Unpack(job.a), Unpack(job.b), 0, plan.rounds, job.seed, M.NOSCORE);
            Alone(plan.cfg, job, plan.rounds) == (q.score, q.steps)
  {
    var job := plan.jobs[j];
    hide M.Rounds, M.BeginMatch;
    M.PlayForgetsThePast(plan.cfg, m, M.Blank(plan.cfg), Unpack(job.a), Unpack(job.b), plan.rounds, job.seed);
  }

  /** Part of a round played: `steps` instructions fewer are left. */
  lemma NowAdvances(cfg: Config, job: Job, m: Machine, w: nat, budget: nat, m': Machine, w': nat, budget': nat,
                    steps: nat,
                    round: nat, rounds: nat, seed: int, score: M.Score)
    requires Fit(cfg, job.a, job.b) && Rng.Int32(seed) && round < rounds && Valid(cfg, m) && Valid(cfg, m') && w < 2
    requires w' < 2
    requires var r := M.Run(cfg, m', w', budget'); M.Run(cfg, m, w, budget) == r.(steps := r.steps + steps)
    ensures var now := Now(cfg, job, m', w', budget', round, rounds, seed, score);
            Now(cfg, job, m, w, budget, round, rounds, seed, score) == (now.0, now.1 + steps)
  {
    hide M.Run, Later, Valid;
  }

  /** A round that ends here after `steps` instructions. */
  lemma NowOver(cfg: Config, job: Job, m: Machine, w: nat, budget: nat, m': Machine, o: M.Outcome, steps: nat,
                round: nat, rounds: nat, seed: int, score: M.Score)
    requires Fit(cfg, job.a, job.b) && Rng.Int32(seed) && round < rounds && Valid(cfg, m) && Valid(cfg, m') && w < 2
    requires (o.Win? ==> o.w < 2) && M.Run(cfg, m, w, budget) == M.Played(m', o, steps)
    ensures var later := Later(cfg, job, m', o, round, rounds, seed, score);
            Now(cfg, job, m, w, budget, round, rounds, seed, score) == (later.0, later.1 + steps)
  {
    hide M.Run, Later, Valid;
  }

  /** After the last round the score is final. */
  lemma NothingLater(cfg: Config, job: Job, m: Machine, o: M.Outcome, round: nat, rounds: nat, seed: int,
                     score: M.Score)
    requires Fit(cfg, job.a, job.b) && Rng.Int32(seed) && round < rounds && Valid(cfg, m) && (o.Win? ==> o.w < 2)
    ensures round + 1 == rounds ==> Later(cfg, job, m, o, round, rounds, seed, score) == (M.Count(score, o), 0)
  {
  }

  /** Loading a round is where its first move begins. */
  lemma RoundOpens(cfg: Config, job: Job, m: Machine, round: nat, rounds: nat, seed: int, score: M.Score)
    requires Fit(cfg, job.a, job.b) && Rng.Int32(seed) && round < rounds && ValidPspace(cfg, m)
    ensures var a, b := Unpack(job.a), Unpack(job.b);
            var loaded := M.Load(cfg, m, a, b, 0, M.Position(cfg, seed));
            var q := M.Rounds(cfg, m, a, b, round, rounds, seed, score);
            (q.score, q.steps) == Now(cfg, job, loaded, round % 2, cfg.maxCycles * 2, round, rounds, Rng.Next(seed),
                score)
  {
    hide M.Load, M.Run, ValidPspace, M.Position, Rng.Next, M.Finish;
  }

  ghost function RoundsOf(plan: Plan, next: nat): int {
    (|plan.jobs| - next) * plan.rounds
  }

  lemma RoundsStep(plan: Plan, next: nat)
    ensures RoundsOf(plan, next) == RoundsOf(plan, next + 1) + plan.rounds
  {
    assert |plan.jobs| - next == (|plan.jobs| - (next + 1)) + 1;
  }

  ghost function Cost(plan: Plan, held: Option<nat>): nat
    requires plan.Valid() && (held.Some? ==> held.value < |plan.jobs|)
  {
    if held == None then 0 else Alone(plan.cfg, plan.jobs[held.value], plan.rounds).1
  }

  lemma TotalStep(plan: Plan, j: nat)
    requires plan.Valid() && j < |plan.jobs|
    ensures Total(plan.cfg, plan.jobs, plan.rounds, j + 1) == Total(plan.cfg, plan.jobs, plan.rounds, j) + Cost(plan,
              Some(j))
  {
  }

  lemma HandedNothing(plan: Plan, next: nat, results: seq<M.Score>)
    requires plan.Valid() && next <= |plan.jobs| == |results|
    ensures Handed(plan, None, next, results, None, next, results)
  {
  }

  lemma HandedFirst(plan: Plan, j: nat, results: seq<M.Score>, holds: Option<nat>, next': nat, results': seq<M.Score>)
    requires plan.Valid() && j < |plan.jobs| && Handed(plan, Some(j), j + 1, results, holds, next', results')
    ensures Handed(plan, None, j, results, holds, next', results')
  {
    hide Alone;
  }

  lemma HandedAfterFinish(plan: Plan, held: Option<nat>, next: nat, results: seq<M.Score>, filled: seq<M.Score>,
                          holds: Option<nat>, next': nat, results': seq<M.Score>)
    requires plan.Valid() && held.Some? && held.value < next && held.value < |plan.jobs| == |results|
    requires filled == results[held.value := Alone(plan.cfg, plan.jobs[held.value], plan.rounds).0]
    requires Handed(plan, None, next, filled, holds, next', results')
    ensures Handed(plan, held, next, results, holds, next', results')
  {
    hide Alone;
  }

  /** What handing out jobs to a lane leaves: results of jobs it finished are
      those of the jobs played alone, other results are untouched. `held` is the
      job the lane had before. */
  ghost predicate Handed(plan: Plan, held: Option<nat>, next: nat, results: seq<M.Score>, holds: Option<nat>,
                         next': nat, results': seq<M.Score>)
    requires plan.Valid()
  {
    && next <= next' <= |plan.jobs| && |results| == |results'| == |plan.jobs|
    && (holds.Some? ==> holds == held || next <= holds.value < next')
    && forall j :: 0 <= j < |plan.jobs| ==>
         if Some(j) != held && !(next <= j < next') then results'[j] == results[j]
         else Some(j) != holds ==> results'[j] == Alone(plan.cfg, plan.jobs[j], plan.rounds).0
  }
}
