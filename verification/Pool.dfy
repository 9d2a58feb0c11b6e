/** Matches on several threads (src/pool.rs): workers take the next unplayed job
    from a shared counter, and their results are joined in job order. The
    threads are a state machine with one step for each access to the counter and
    one for each match finished; a run is any interleaving of such steps. */
module Pool {
  import Rng
  import M = Match
  import S = Scores
  import opened Configs
  import opened Semantics
  import opened Engines
  import opened Lanes

  datatype Phase = Fetching | Playing(k: nat) | Stopped

  /** `done` in the order played; `steps` is the worker's engine's count. */
  datatype Worker = Worker(phase: Phase, done: seq<(nat, M.Score)>, steps: nat)

  datatype State = State(next: nat, workers: seq<Worker>)

  function Start(threads: nat): State {
    State(0, seq(threads, _ => Worker(Fetching, [], 0)))
  }

  /** The counter's `fetch_add`, and the job it gives or none. */
  function Fetch(plan: Plan, s: State, i: nat): State
    requires i < |s.workers| && s.workers[i].phase.Fetching?
  {
    var w := s.workers[i].(phase := if s.next < |plan.jobs| then Playing(s.next) else Stopped);
    State(s.next + 1, s.workers[i := w])
  }

  /** A match ends: `PlayJob` is why its result does not depend on what the
      worker's engine played before. */
  function Finish(plan: Plan, s: State, i: nat): State
    requires plan.Valid() && i < |s.workers| && s.workers[i].phase.Playing? && s.workers[i].phase.k < |plan.jobs|
  {
    var k := s.workers[i].phase.k;
    var (score, n) := Alone(plan.cfg, plan.jobs[k], plan.rounds);
    var w := Worker(Fetching, s.workers[i].done + [(k, score)], s.workers[i].steps + n);
    s.(workers := s.workers[i := w])
  }

  predicate Next(plan: Plan, s: State, s': State, i: nat)
    requires plan.Valid()
  {
    && i < |s.workers|
    && match s.workers[i].phase
       case Fetching => s' == Fetch(plan, s, i)
       case Playing(k) => k < |plan.jobs| && s' == Finish(plan, s, i)
       case Stopped => false
  }

  /** A run: `who[n]` is the worker that moves from state n to state n + 1. */
  ghost predicate IsRun(plan: Plan, run: seq<State>, who: seq<nat>, threads: nat)
    requires plan.Valid()
  {
    && |run| == |who| + 1 && run[0] == Start(threads)
    && forall n :: 0 <= n < |who| ==> Next(plan, run[n], run[n + 1], who[n])
  }

  predicate AllStopped(s: State) {
    forall i :: 0 <= i < |s.workers| ==> s.workers[i].phase.Stopped?
  }

  // ---- what is claimed and counted ----

  function HandedOut(plan: Plan, s: State): nat {
    if s.next < |plan.jobs| then s.next else |plan.jobs|
  }

  /** How often job `j` is among a worker's results. */
  function TimesDone(done: seq<(nat, M.Score)>, j: nat): nat {
    if done == [] then 0 else TimesDone(done[..|done| - 1], j) + if done[|done| - 1].0 == j then 1 else 0
  }

  /** How often a worker has played, or is playing, job `j`. */
  function Claims(w: Worker, j: nat): nat {
    TimesDone(w.done, j) + if w.phase == Playing(j) then 1 else 0
  }

  function AllClaims(ws: seq<Worker>, j: nat): nat {
    if ws == [] then 0 else AllClaims(ws[..|ws| - 1], j) + Claims(ws[|ws| - 1], j)
  }

  /** Every job handed out is claimed exactly once among all workers, the
      others not at all. */
  ghost predicate Claimed(plan: Plan, s: State) {
    forall j: nat :: AllClaims(s.workers, j) == if j < HandedOut(plan, s) then 1 else 0
  }

  /** Instructions counted by a worker, with those of the match it is playing. */
  function Owed(plan: Plan, w: Worker): nat
    requires plan.Valid() && (w.phase.Playing? ==> w.phase.k < |plan.jobs|)
  {
    w.steps + if w.phase.Playing? then Alone(plan.cfg, plan.jobs[w.phase.k], plan.rounds).1 else 0
  }

  predicate InRange(plan: Plan, ws: seq<Worker>) {
    forall i :: 0 <= i < |ws| ==> ws[i].phase.Playing? ==> ws[i].phase.k < |plan.jobs|
  }

  function AllOwed(plan: Plan, ws: seq<Worker>): nat
    requires plan.Valid() && InRange(plan, ws)
  {
    if ws == [] then 0 else AllOwed(plan, ws[..|ws| - 1]) + Owed(plan, ws[|ws| - 1])
  }

  predicate Right(plan: Plan, done: seq<(nat, M.Score)>)
    requires plan.Valid()
  {
    forall n :: 0 <= n < |done| ==>
      done[n].0 < |plan.jobs| && done[n].1 == Alone(plan.cfg, plan.jobs[done[n].0], plan.rounds).0
  }

  predicate AllRight(plan: Plan, s: State)
    requires plan.Valid()
  {
    && (forall i :: 0 <= i < |s.workers| ==> Right(plan, s.workers[i].done))
    && (forall i :: 0 <= i < |s.workers| ==> s.workers[i].phase.Stopped? ==> s.next >= |plan.jobs|)
  }

  /** Each job handed out is claimed once; every score is the job's own; the
      instructions add up. */
  ghost predicate Inv(plan: Plan, s: State)
    requires plan.Valid()
  {
    && InRange(plan, s.workers)
    && Claimed(plan, s)
    && AllOwed(plan, s.workers) == Total(plan.cfg, plan.jobs, plan.rounds, HandedOut(plan, s))
    && AllRight(plan, s)
  }

  lemma {:induction false} ClaimsUpdate(ws: seq<Worker>, i: nat, w: Worker, j: nat)
    requires i < |ws|
    ensures AllClaims(ws[i := w], j) + Claims(ws[i], j) == AllClaims(ws, j) + Claims(w, j)
  {
    hide Claims;
    var last := |ws| - 1;
    if i == last {
      assert ws[i := w][..last] == ws[..last];
    } else {
      ClaimsUpdate(ws[..last], i, w, j);
      assert ws[i := w][..last] == ws[..last][i := w];
    }
  }

  lemma {:induction false} OwedUpdate(plan: Plan, ws: seq<Worker>, i: nat, w: Worker)
    requires plan.Valid() && InRange(plan, ws) && i < |ws| && (w.phase.Playing? ==> w.phase.k < |plan.jobs|)
    ensures InRange(plan, ws[i := w])
    ensures AllOwed(plan, ws[i := w]) + Owed(plan, ws[i]) == AllOwed(plan, ws) + Owed(plan, w)
  {
    hide Plan.Valid, Owed;
    var last := |ws| - 1;
    if i == last {
      assert ws[i := w][..last] == ws[..last];
    } else {
      OwedUpdate(plan, ws[..last], i, w);
      assert ws[i := w][..last] == ws[..last][i := w];
    }
  }

  lemma InvStart(plan: Plan, threads: nat)
    requires plan.Valid()
    ensures Inv(plan, Start(threads))
  {
    hide Plan.Valid, Claims, AllClaims, Owed, AllOwed;
    NothingOwed(plan, threads);
    forall j: nat
      ensures AllClaims(Start(threads).workers, j) == 0
    {
      NothingClaimed(threads, j);
    }
  }

  lemma {:induction false} NothingClaimed(threads: nat, j: nat)
    ensures AllClaims(Start(threads).workers, j) == 0
  {
    if threads > 0 {
      NothingClaimed(threads - 1, j);
      assert Start(threads).workers[..threads - 1] == Start(threads - 1).workers;
    }
  }

  lemma {:induction false} NothingOwed(plan: Plan, threads: nat)
    requires plan.Valid()
    ensures var ws := Start(threads).workers; InRange(plan, ws) && AllOwed(plan, ws) == 0
  {
    if threads > 0 {
      NothingOwed(plan, threads - 1);
      assert Start(threads).workers[..threads - 1] == Start(threads - 1).workers;
    }
  }

  lemma FetchClaims(plan: Plan, s: State, i: nat)
    requires i < |s.workers| && s.workers[i].phase.Fetching? && Claimed(plan, s)
    ensures Claimed(plan, Fetch(plan, s, i))
  {
    hide AllClaims, TimesDone;
    var s' := Fetch(plan, s, i);
    forall j: nat
      ensures AllClaims(s'.workers, j) == if j < HandedOut(plan, s') then 1 else 0
    {
      ClaimsUpdate(s.workers, i, s'.workers[i], j);
    }
  }

  lemma FetchKeeps(plan: Plan, s: State, i: nat)
    requires plan.Valid() && Inv(plan, s) && i < |s.workers| && s.workers[i].phase.Fetching?
    ensures Inv(plan, Fetch(plan, s, i))
  {
    hide Plan.Valid, Alone, Claimed, AllOwed, Right;
    FetchClaims(plan, s, i);
    OwedUpdate(plan, s.workers, i, Fetch(plan, s, i).workers[i]);
  }

  lemma FinishClaims(plan: Plan, s: State, i: nat)
    requires plan.Valid() && i < |s.workers| && s.workers[i].phase.Playing? && s.workers[i].phase.k < |plan.jobs|
    requires Claimed(plan, s)
    ensures Claimed(plan, Finish(plan, s, i))
  {
    hide Plan.Valid, AllClaims, Alone;
    var s' := Finish(plan, s, i);
    var v, w := s.workers[i], s'.workers[i];
    assert w.done[..|w.done| - 1] == v.done;
    forall j: nat
      ensures AllClaims(s'.workers, j) == if j < HandedOut(plan, s') then 1 else 0
    {
      ClaimsUpdate(s.workers, i, w, j);
    }
  }

  lemma FinishRight(plan: Plan, s: State, i: nat)
    requires plan.Valid() && i < |s.workers| && s.workers[i].phase.Playing? && s.workers[i].phase.k < |plan.jobs|
    requires AllRight(plan, s)
    ensures AllRight(plan, Finish(plan, s, i))
  {
    hide Plan.Valid, Alone;
    assert Right(plan, s.workers[i].done);
  }

  lemma FinishKeeps(plan: Plan, s: State, i: nat)
    requires plan.Valid() && Inv(plan, s) && i < |s.workers| && s.workers[i].phase.Playing?
    requires s.workers[i].phase.k < |plan.jobs|
    ensures Inv(plan, Finish(plan, s, i))
  {
    hide Plan.Valid, Alone, Total, Claimed, AllOwed, AllRight;
    FinishClaims(plan, s, i);
    FinishRight(plan, s, i);
    OwedUpdate(plan, s.workers, i, Finish(plan, s, i).workers[i]);
  }

  /** In every state of every run the invariant holds. */
  lemma {:induction false} InvThroughout(plan: Plan, run: seq<State>, who: seq<nat>, threads: nat, n: nat)
    requires plan.Valid() && IsRun(plan, run, who, threads) && n < |run|
    ensures Inv(plan, run[n]) && |run[n].workers| == threads
    decreases n
  {
    hide Plan.Valid, Inv, Fetch, Finish;
    if n == 0 {
      InvStart(plan, threads);
    } else {
      InvThroughout(plan, run, who, threads, n - 1);
      StepKeeps(plan, run[n - 1], run[n], who[n - 1]);
    }
  }

  lemma StepKeeps(plan: Plan, s: State, s': State, i: nat)
    requires plan.Valid() && Inv(plan, s) && Next(plan, s, s', i)
    ensures Inv(plan, s') && |s'.workers| == |s.workers|
  {
    hide Plan.Valid, Inv;
    if s.workers[i].phase.Fetching? {
      FetchKeeps(plan, s, i);
    } else {
      FinishKeeps(plan, s, i);
    }
  }

  // ---- all workers stop ----

  function Alive(ws: seq<Worker>): nat {
    if ws == [] then 0
    else Alive(ws[..|ws| - 1]) +
         match ws[|ws| - 1].phase { case Stopped => 0 case Fetching => 1 case Playing(_) => 2 }
  }

  /** Two steps for each job not handed out, two for each match under way and
      one for each worker about to look. */
  function StepsLeft(plan: Plan, s: State): nat {
    2 * (|plan.jobs| - HandedOut(plan, s)) + Alive(s.workers)
  }

  lemma {:induction false} AliveUpdate(ws: seq<Worker>, i: nat, w: Worker)
    requires i < |ws|
    ensures Alive(ws[i := w]) + Alive([ws[i]]) == Alive(ws) + Alive([w])
  {
    var last := |ws| - 1;
    if i == last {
      assert ws[i := w][..last] == ws[..last];
      AliveOne(ws[..last], ws[i]);
      AliveOne(ws[..last], w);
      assert ws == ws[..last] + [ws[i]] && ws[i := w] == ws[..last] + [w];
    } else {
      AliveUpdate(ws[..last], i, w);
      assert ws[i := w][..last] == ws[..last][i := w];
    }
  }

  lemma AliveOne(ws: seq<Worker>, w: Worker)
    ensures Alive(ws + [w]) == Alive(ws) + Alive([w])
  {
    assert (ws + [w])[..|ws|] == ws;
    assert [w][..0] == [];
  }

  lemma EveryStepCounts(plan: Plan, s: State, s': State, i: nat)
    requires plan.Valid() && Next(plan, s, s', i)
    ensures StepsLeft(plan, s') < StepsLeft(plan, s)
  {
    hide Plan.Valid, Alone;
    AliveUpdate(s.workers, i, s'.workers[i]);
    AliveOne([], s.workers[i]);
    AliveOne([], s'.workers[i]);
    assert [] + [s.workers[i]] == [s.workers[i]] && [] + [s'.workers[i]] == [s'.workers[i]];
  }

  lemma {:induction false} AliveAtStart(threads: nat)
    ensures Alive(Start(threads).workers) == threads
  {
    if threads > 0 {
      AliveAtStart(threads - 1);
      assert Start(threads).workers[..threads - 1] == Start(threads - 1).workers;
    }
  }

  /** No run is longer than two steps a job and one a worker, and until all
      workers have stopped one of them can move: every schedule that goes on
      ends with all of them stopped. */
  lemma {:induction false} RunsEnd(plan: Plan, run: seq<State>, who: seq<nat>, threads: nat, n: nat)
    requires plan.Valid() && IsRun(plan, run, who, threads) && n < |run|
    ensures n + StepsLeft(plan, run[n]) <= 2 * |plan.jobs| + threads
    ensures !AllStopped(run[n]) ==> exists i, s' :: Next(plan, run[n], s', i)
    decreases n
  {
    hide Plan.Valid, Inv, Fetch, Finish, StepsLeft;
    if n == 0 {
      AliveAtStart(threads);
      StepsAtStart(plan, threads);
    } else {
      RunsEnd(plan, run, who, threads, n - 1);
      EveryStepCounts(plan, run[n - 1], run[n], who[n - 1]);
    }
    InvThroughout(plan, run, who, threads, n);
    CanMove(plan, run[n]);
  }

  lemma StepsAtStart(plan: Plan, threads: nat)
    requires Alive(Start(threads).workers) == threads
    ensures StepsLeft(plan, Start(threads)) == 2 * |plan.jobs| + threads
  {
  }

  lemma CanMove(plan: Plan, s: State)
    requires plan.Valid() && Inv(plan, s)
    ensures !AllStopped(s) ==> exists i, s' :: Next(plan, s, s', i)
  {
    if !AllStopped(s) {
      var i :| 0 <= i < |s.workers| && !s.workers[i].phase.Stopped?;
      if s.workers[i].phase.Fetching? {
        assert Next(plan, s, Fetch(plan, s, i), i);
      } else {
        assert Next(plan, s, Finish(plan, s, i), i);
      }
    }
  }

  // ---- joining ----

  /** A job claimed among the workers is claimed by one of them. */
  lemma {:induction false} ClaimedBySome(ws: seq<Worker>, j: nat) returns (i: nat)
    requires AllClaims(ws, j) > 0
    ensures i < |ws| && Claims(ws[i], j) > 0
  {
    var last := |ws| - 1;
    if Claims(ws[last], j) > 0 {
      i := last;
    } else {
      i := ClaimedBySome(ws[..last], j);
    }
  }

  lemma {:induction false} DoneSomewhere(done: seq<(nat, M.Score)>, j: nat) returns (n: nat)
    requires TimesDone(done, j) > 0
    ensures n < |done| && done[n].0 == j
  {
    var last := |done| - 1;
    if done[last].0 == j {
      n := last;
    } else {
      n := DoneSomewhere(done[..last], j);
    }
  }

  /** Every job's score is somewhere among the workers' results. */
  lemma EveryJobDone(plan: Plan, s: State, j: nat) returns (i: nat, n: nat)
    requires plan.Valid() && Inv(plan, s) && AllStopped(s) && s.workers != [] && j < |plan.jobs|
    ensures i < |s.workers| && n < |s.workers[i].done| && s.workers[i].done[n].0 == j
  {
    hide Plan.Valid, AllOwed, Right, TimesDone, AllClaims;
    assert s.workers[0].phase.Stopped?;
    i := ClaimedBySome(s.workers, j);
    n := DoneSomewhere(s.workers[i].done, j);
  }

  function AllSteps(ws: seq<Worker>): nat {
    if ws == [] then 0 else AllSteps(ws[..|ws| - 1]) + ws[|ws| - 1].steps
  }

  lemma {:induction false} StoppedOwe(plan: Plan, ws: seq<Worker>)
    requires plan.Valid() && InRange(plan, ws) && forall i :: 0 <= i < |ws| ==> ws[i].phase.Stopped?
    ensures AllOwed(plan, ws) == AllSteps(ws)
  {
    if ws != [] {
      StoppedOwe(plan, ws[..|ws| - 1]);
    }
  }

  /** However the workers interleave: when all have stopped, each job was
      played exactly once, with its own score, and the instructions are those
      of playing the jobs one after another. */
  lemma EveryRunAgrees(plan: Plan, run: seq<State>, who: seq<nat>, threads: nat, j: nat)
    requires plan.Valid() && IsRun(plan, run, who, threads) && threads >= 1 && j < |plan.jobs|
    requires AllStopped(run[|who|])
    ensures AllClaims(run[|who|].workers, j) == 1
    ensures exists i, n :: 0 <= i < threads && i < |run[|who|].workers| && 0 <= n < |run[|who|].workers[i].done|
                           && run[|who|].workers[i].done[n] == (j, Alone(plan.cfg, plan.jobs[j], plan.rounds).0)
    ensures AllSteps(run[|who|].workers) == Total(plan.cfg, plan.jobs, plan.rounds, |plan.jobs|)
  {
    hide Fit, Alone, AllClaims, AllOwed, AllSteps;
    var s := run[|who|];
    InvThroughout(plan, run, who, threads, |who|);
    assert s.workers[0].phase.Stopped?;
    StoppedOwe(plan, s.workers);
    var i, n := EveryJobDone(plan, s, j);
    assert Right(plan, s.workers[i].done);
    assert s.workers[i].done[n] == (j, Alone(plan.cfg, plan.jobs[j], plan.rounds).0);
  }

  /** Collect the stopped workers' results, worker by worker. */
  method Join(plan: Plan, s: State) returns (scores: seq<M.Score>, steps: nat)
    requires plan.Valid() && Inv(plan, s) && AllStopped(s) && s.workers != []
    ensures |scores| == |plan.jobs|
    ensures forall j :: 0 <= j < |plan.jobs| ==> scores[j] == Alone(plan.cfg, plan.jobs[j], plan.rounds).0
    ensures steps == Total(plan.cfg, plan.jobs, plan.rounds, |plan.jobs|)
  {
    hide Fit, Alone, Total, Claimed, AllOwed;
    scores := seq(|plan.jobs|, _ => M.NOSCORE);
    steps := 0;
    for i := 0 to |s.workers|
      invariant |scores| == |plan.jobs| && steps == AllSteps(s.workers[..i])
      invariant forall h, n :: 0 <= h < i && 0 <= n < |s.workers[h].done| ==>
                  var k := s.workers[h].done[n].0;
                  k < |plan.jobs| && scores[k] == Alone(plan.cfg, plan.jobs[k], plan.rounds).0
    {
      var done := s.workers[i].done;
      scores := Fill(plan, scores, done);
      assert s.workers[..i + 1][..i] == s.workers[..i];
      steps := steps + s.workers[i].steps;
    }
    assert s.workers[..|s.workers|] == s.workers;
    StoppedOwe(plan, s.workers);
    assert s.workers[0].phase.Stopped?;
    forall j | 0 <= j < |plan.jobs|
      ensures scores[j] == Alone(plan.cfg, plan.jobs[j], plan.rounds).0
    {
      var i, n := EveryJobDone(plan, s, j);
    }
  }

  /** Put one worker's results where they belong; results already right stay
      right. */
  method Fill(plan: Plan, scores: seq<M.Score>, done: seq<(nat, M.Score)>) returns (filled: seq<M.Score>)
    requires plan.Valid() && |scores| == |plan.jobs| && Right(plan, done)
    ensures |filled| == |scores|
    ensures forall j :: 0 <= j < |scores| ==>
              filled[j] == scores[j] || filled[j] == Alone(plan.cfg, plan.jobs[j], plan.rounds).0
    ensures forall n :: 0 <= n < |done| ==> filled[done[n].0] == Alone(plan.cfg, plan.jobs[done[n].0], plan.rounds).0
  {
    hide Fit, Alone;
    filled := scores;
    for n := 0 to |done|
      invariant |filled| == |scores|
      invariant forall j :: 0 <= j < |scores| ==>
                  filled[j] == scores[j] || filled[j] == Alone(plan.cfg, plan.jobs[j], plan.rounds).0
      invariant forall m :: 0 <= m < n ==> filled[done[m].0] == Alone(plan.cfg, plan.jobs[done[m].0], plan.rounds).0
    {
      filled := filled[done[n].0 := done[n].1];
    }
  }

  // ---- the whole ----

  /** A worker's engine plays a job as a fresh engine would. */
  method PlayJob(e: Engine, job: Job, rounds: nat) returns (score: M.Score)
    requires e.Rep() && Fit(e.cfg, job.a, job.b) && Rng.Int32(job.seed)
    modifies e, e.core, e.qbuf, e.pspace, e.lastResult
    ensures e.Rep() && (score, e.steps) == (Alone(e.cfg, job, rounds).0, old(e.steps) + Alone(e.cfg, job, rounds).1)
  {
    hide M.Play, S.Counts, Fit, Unpack;
    Forgets(e.cfg, e.Abs(), job, rounds);
    score := e.Play(job.a, job.b, rounds, job.seed);
  }

  lemma Forgets(cfg: Config, m: Machine, job: Job, rounds: nat)
    requires Fit(cfg, job.a, job.b) && Rng.Int32(job.seed)
    ensures var p := M.Play(cfg, m, Unpack(job.a), Unpack(job.b), rounds, job.seed);
            Alone(cfg, job, rounds) == (p.score, p.steps)
  {
    hide M.Play;
    M.PlayForgetsThePast(cfg, m, M.Blank(cfg), Unpack(job.a), Unpack(job.b), rounds, job.seed);
  }

  /** One thread: a single engine, job after job. */
  method PlayOneByOne(plan: Plan) returns (scores: seq<M.Score>, steps: nat)
    requires plan.Valid()
    ensures |scores| == |plan.jobs|
    ensures forall j :: 0 <= j < |plan.jobs| ==> scores[j] == Alone(plan.cfg, plan.jobs[j], plan.rounds).0
    ensures steps == Total(plan.cfg, plan.jobs, plan.rounds, |plan.jobs|)
  {
    hide Alone, Fit;
    var e := new Engine(plan.cfg);
    scores := [];
    for j := 0 to |plan.jobs|
      invariant e.Rep() && e.cfg == plan.cfg && |scores| == j
      invariant fresh(e) && fresh(e.core) && fresh(e.lastResult)
      invariant |e.qbuf| == 2 && fresh(e.qbuf[0]) && fresh(e.qbuf[1]) && |e.pspace| == 2 && fresh(e.pspace[0])
      invariant fresh(e.pspace[1])
      invariant forall i :: 0 <= i < j ==> scores[i] == Alone(plan.cfg, plan.jobs[i], plan.rounds).0
      invariant e.steps == Total(plan.cfg, plan.jobs, plan.rounds, j)
    {
      var score := PlayJob(e, plan.jobs[j], plan.rounds);
      scores := scores + [score];
    }
    steps := e.steps;
  }

  /** Any schedule: as long as some worker has not stopped, one of them moves,
      whichever. */
  method PlayAll(plan: Plan, threads: nat) returns (scores: seq<M.Score>, steps: nat)
    requires plan.Valid()
    ensures |scores| == |plan.jobs|
    ensures forall j :: 0 <= j < |plan.jobs| ==> scores[j] == Alone(plan.cfg, plan.jobs[j], plan.rounds).0
    ensures AllCount(plan.cfg, plan.jobs, plan.rounds, scores)
    ensures steps == Total(plan.cfg, plan.jobs, plan.rounds, |plan.jobs|)
  {
    hide Alone, AllCount, ValidJobs, Total, Inv, Fetch, Finish, StepsLeft;
    var most := if |plan.jobs| > 1 then |plan.jobs| else 1;
    var n := if threads < 1 then 1 else if threads > most then most else threads;
    if n == 1 {
      scores, steps := PlayOneByOne(plan);
      AllCounted(plan.cfg, plan.jobs, plan.rounds, scores);
      return;
    }
    var s := Start(n);
    InvStart(plan, n);
    while !AllStopped(s)
      invariant Inv(plan, s) && |s.workers| == n
      decreases StepsLeft(plan, s)
    {
      var i :| 0 <= i < |s.workers| && !s.workers[i].phase.Stopped?;
      ghost var before := s;
      Playable(plan, s, i);
      if s.workers[i].phase.Fetching? {
        s := Fetch(plan, s, i);
      } else {
        s := Finish(plan, s, i);
      }
      StepKeeps(plan, before, s, i);
      EveryStepCounts(plan, before, s, i);
    }
    scores, steps := Join(plan, s);
    AllCounted(plan.cfg, plan.jobs, plan.rounds, scores);
  }

  lemma Playable(plan: Plan, s: State, i: nat)
    requires plan.Valid() && Inv(plan, s) && i < |s.workers|
    ensures s.workers[i].phase.Playing? ==> s.workers[i].phase.k < |plan.jobs|
  {
  }
}
