/** A match with the core's writes recorded in frames (src/trace.rs). */
module Traces {
  import Bits
  import Rng
  import opened Redcode
  import opened Configs
  import opened Semantics
  import opened MachineFacts
  import opened Match
  import opened Scores
  import opened Observed
  import opened MarsEngine

  // ---- the ordered map of pending writes ----

  /** Entries in order of their cells; `insert` replaces. */
  function Insert(entries: seq<(nat, nat)>, c: nat, w: nat): seq<(nat, nat)> {
    if entries == [] || c < entries[0].0 then [(c, w)] + entries
    else if c == entries[0].0 then [(c, w)] + entries[1..]
    else [entries[0]] + Insert(entries[1..], c, w)
  }

  function InsertAll(entries: seq<(nat, nat)>, cells: seq<nat>, w: nat): seq<(nat, nat)> {
    if cells == [] then entries
    else Insert(InsertAll(entries, cells[..|cells| - 1], w), cells[|cells| - 1], w)
  }

  function Lookup(entries: seq<(nat, nat)>, c: nat): Option<nat> {
    if entries == [] then None
    else if entries[0].0 == c then Some(entries[0].1)
    else Lookup(entries[1..], c)
  }

  predicate Ordered(entries: seq<(nat, nat)>) {
    forall i, j :: 0 <= i < j < |entries| ==> entries[i].0 < entries[j].0
  }

  lemma {:induction false} InsertIsOrdered(entries: seq<(nat, nat)>, c: nat, w: nat)
    requires Ordered(entries)
    ensures var r := Insert(entries, c, w);
            Ordered(r) && r != [] && r[0].0 == if entries != [] && entries[0].0 < c then entries[0].0 else c
  {
    if entries != [] && entries[0].0 < c {
      InsertIsOrdered(entries[1..], c, w);
      var r := Insert(entries[1..], c, w);
      forall i, j | 0 <= i < j < |r| + 1
        ensures ([entries[0]] + r)[i].0 < ([entries[0]] + r)[j].0
      {
        if i == 0 && j > 1 {
          assert r[0].0 < r[j - 1].0;
        }
      }
    }
  }

  lemma {:induction false} InsertLooksUp(entries: seq<(nat, nat)>, c: nat, w: nat, d: nat)
    requires Ordered(entries)
    ensures Lookup(Insert(entries, c, w), d) == if d == c then Some(w) else Lookup(entries, d)
  {
    if entries != [] && entries[0].0 < c {
      InsertLooksUp(entries[1..], c, w, d);
    }
  }

  lemma {:induction false} InsertAllLooksUp(entries: seq<(nat, nat)>, cells: seq<nat>, w: nat, d: nat)
    requires Ordered(entries)
    ensures Ordered(InsertAll(entries, cells, w))
    ensures Lookup(InsertAll(entries, cells, w), d) == if d in cells then Some(w) else Lookup(entries, d)
  {
    hide Insert, Ordered;
    if cells != [] {
      var init, last := cells[..|cells| - 1], cells[|cells| - 1];
      InsertAllLooksUp(entries, init, w, d);
      InsertIsOrdered(InsertAll(entries, init, w), last, w);
      InsertLooksUp(InsertAll(entries, init, w), last, w, d);
      assert cells == init + [last];
    }
  }

  // ---- what frames must say ----

  /** The warrior whose instruction wrote cell `c` last. */
  function LastWriter(seen: seq<Seen>, c: nat): Option<nat> {
    if seen == [] then None
    else if c in seen[|seen| - 1].written then Some(seen[|seen| - 1].w)
    else LastWriter(seen[..|seen| - 1], c)
  }

  /** Instruction `k` wrote the cell and none after it did. */
  predicate WroteLast(seen: seq<Seen>, c: nat, k: nat)
    requires k < |seen|
  {
    c in seen[k].written && forall j: nat :: k < j < |seen| ==> c !in seen[j].written
  }

  lemma {:induction false} LastWriterIs(seen: seq<Seen>, c: nat)
    ensures (forall j: nat :: j < |seen| ==> c !in seen[j].written) ==> LastWriter(seen, c) == None
    ensures forall k: nat :: k < |seen| && WroteLast(seen, c, k) ==> LastWriter(seen, c) == Some(seen[k].w)
  {
    if seen != [] {
      var init := seen[..|seen| - 1];
      LastWriterIs(init, c);
      forall k: nat | k < |seen| && WroteLast(seen, c, k)
        ensures LastWriter(seen, c) == Some(seen[k].w)
      {
        if k < |init| {
          assert seen[|seen| - 1].written == seen[|init|].written;
          assert WroteLast(init, c, k);
        }
      }
    }
  }

  datatype Frame = Frame(cycle: nat, processes: (nat, nat), writes: seq<(nat, nat)>)

  /** Where frame `k` stops, `e` instructions a frame. */
  function Stop(n: nat, e: nat, k: nat): nat {
    if (k + 1) * e <= n then (k + 1) * e else n
  }

  ghost predicate Writes(writes: seq<(nat, nat)>, seen: seq<Seen>) {
    Ordered(writes) && forall c: nat :: Lookup(writes, c) == LastWriter(seen, c)
  }

  function Processes(m: Machine): (nat, nat)
    requires |m.queues| == 2
  {
    (|m.queues[0]|, |m.queues[1]|)
  }

  /** Frame `k` shows the instructions from the end of the frame before it to
      its own: their writes, each cell once with its last writer, in the order
      of the cells; and both queues' lengths as it ends. */
  ghost predicate FrameAt(seen: seq<Seen>, e: nat, k: nat, frame: Frame) {
    && k * e < Stop(|seen|, e, k) <= |seen|
    && frame.cycle == (Stop(|seen|, e, k) + 1) / 2
    && |seen[Stop(|seen|, e, k) - 1].after.queues| == 2
    && frame.processes == Processes(seen[Stop(|seen|, e, k) - 1].after)
    && Writes(frame.writes, seen[k * e..Stop(|seen|, e, k)])
  }

  /** The frames of a whole round. */
  ghost predicate FramesOf(seen: seq<Seen>, e: nat, frames: seq<Frame>) {
    && (forall k :: 0 <= k < |frames| ==> FrameAt(seen, e, k, frames[k]))
    && frames != [] && Stop(|seen|, e, |frames| - 1) == |seen|
  }

  /** A frame shows both queues' lengths as its last instruction leaves them. */
  lemma FrameEnds(seen: seq<Seen>, e: nat, k: nat, frame: Frame)
    requires FrameAt(seen, e, k, frame)
    ensures var n := if (k + 1) * e <= |seen| then (k + 1) * e else |seen|;
            && 0 < n && |seen[n - 1].after.queues| == 2
            && frame.processes == (|seen[n - 1].after.queues[0]|, |seen[n - 1].after.queues[1]|)
  {
    hide Writes;
  }

  /** Frame cycles are the multiples of the frame length, strictly increasing,
      except that the last is the cycle the round ends on. */
  lemma FrameCycles(seen: seq<Seen>, every: nat, frames: seq<Frame>, k: nat)
    requires every >= 1 && FramesOf(seen, 2 * every, frames) && k < |frames|
    ensures k < |frames| - 1 ==> frames[k].cycle == (k + 1) * every && frames[k].cycle < frames[k + 1].cycle
    ensures k == |frames| - 1 ==> frames[k].cycle == (|seen| + 1) / 2
  {
    hide Writes, Processes;
    var e := 2 * every;
    assert FrameAt(seen, e, k, frames[k]);
    if k < |frames| - 1 {
      assert FrameAt(seen, e, k + 1, frames[k + 1]);
      WholeCycles(k, every, Stop(|seen|, e, k), Stop(|seen|, e, k + 1));
    }
  }

  lemma WholeCycles(k: nat, every: nat, stop: nat, next: nat)
    requires stop == (k + 1) * (2 * every) < next
    ensures (stop + 1) / 2 == (k + 1) * every < (next + 1) / 2
  {
    var c := (k + 1) * every;
    assert (k + 1) * (2 * every) == 2 * c;
  }

  /** The cells as a viewer shows them after the frames so far. */
  function Painted(frames: seq<Frame>, c: nat): Option<nat> {
    if frames == [] then None
    else
      var shown := Lookup(frames[|frames| - 1].writes, c);
      if shown.Some? then shown else Painted(frames[..|frames| - 1], c)
  }

  lemma {:induction false} LastWriterSplits(x: seq<Seen>, y: seq<Seen>, c: nat)
    ensures LastWriter(x + y, c) == if LastWriter(y, c).Some? then LastWriter(y, c) else LastWriter(x, c)
  {
    if y == [] {
      assert x + y == x;
    } else {
      LastWriterSplits(x, y[..|y| - 1], c);
      assert (x + y)[..|x + y| - 1] == x + y[..|y| - 1];
    }
  }

  lemma NobodyWrote(c: nat)
    ensures LastWriter([], c) == None
  {
  }

  lemma {:induction false} PaintedSoFar(seen: seq<Seen>, e: nat, frames: seq<Frame>, n: nat, c: nat)
    requires n <= |frames| && forall k :: 0 <= k < |frames| ==> FrameAt(seen, e, k, frames[k])
    ensures n > 0 ==> Stop(|seen|, e, n - 1) <= |seen|
    ensures Painted(frames[..n], c) == if n == 0 then None else LastWriter(seen[..Stop(|seen|, e, n - 1)], c)
  {
    hide LastWriter, Ordered, Processes, Lookup;
    if n == 0 {
      assert frames[..0] == [];
    } else {
      PaintedSoFar(seen, e, frames, n - 1, c);
      var k := n - 1;
      assert FrameAt(seen, e, k, frames[k]);
      assert frames[..n][..n - 1] == frames[..n - 1];
      var from, to := k * e, Stop(|seen|, e, k);
      LastWriterSplits(seen[..from], seen[from..to], c);
      assert seen[..from] + seen[from..to] == seen[..to];
      if k == 0 {
        assert seen[..from] == [];
        NobodyWrote(c);
      } else {
        assert FrameAt(seen, e, k - 1, frames[k - 1]);
        assert Stop(|seen|, e, k - 1) == k * e;
      }
    }
  }

  /** Replaying the frames in order shows for every cell the warrior that wrote
      it last in the round, and nothing for a cell no instruction wrote. */
  lemma FramesPaintTheRound(seen: seq<Seen>, e: nat, frames: seq<Frame>, c: nat)
    requires FramesOf(seen, e, frames)
    ensures Painted(frames, c) == LastWriter(seen, c)
  {
    PaintedSoFar(seen, e, frames, |frames|, c);
    assert frames[..|frames|] == frames && seen[..|seen|] == seen;
  }

  // ---- the recorder ----

  /** What the recorder holds after the instructions `seen`: all full frames,
      and the pending writes since. */
  ghost predicate Holds(seen: seq<Seen>, e: nat, frames: seq<Frame>, pending: seq<(nat, nat)>) {
    && e >= 1 && e % 2 == 0 && |frames| * e <= |seen| < |frames| * e + e
    && (forall k :: 0 <= k < |frames| ==> FrameAt(seen, e, k, frames[k]) && Stop(|seen|, e, k) == (k + 1) * e)
    && Writes(pending, seen[|frames| * e..])
  }

  class Recorder {
    const everySteps: nat
    var pending: seq<(nat, nat)>
    var frames: seq<Frame>

    constructor (everySteps: nat)
      requires everySteps >= 1 && everySteps % 2 == 0
      ensures this.everySteps == everySteps && Holds([], everySteps, frames, pending)
    {
      this.everySteps := everySteps;
      pending, frames := [], [];
    }

    method Flush(mars: Mars, cycle: nat)
      requires |mars.queues| == 2
      modifies this
      ensures frames == old(frames) + [Frame(cycle, Processes(mars.Abs()), old(pending))] && pending == []
    {
      frames := frames + [Frame(cycle, (|mars.queues[0]|, |mars.queues[1]|), pending)];
      pending := [];
    }

    /** The `step`-th instruction of the round, `seen` those before it. */
    method AfterStep(mars: Mars, w: nat, written: seq<nat>, step: nat, ghost seen: seq<Seen>, ghost s: Seen)
      requires everySteps >= 1 && Holds(seen, everySteps, frames, pending) && step == |seen| + 1
      requires s.w == w && s.written == written && s.after == mars.Abs() && |mars.queues| == 2
      modifies this
      ensures Holds(seen + [s], everySteps, frames, pending)
    {
      hide Holds, FrameAt, Writes;
      ghost var before := pending;
      for i := 0 to |written|
        invariant frames == old(frames) && pending == InsertAll(before, written[..i], w)
      {
        assert written[..i + 1][..i] == written[..i];
        pending := Insert(pending, written[i], w);
      }
      assert written[..|written|] == written;
      StepHeld(seen, s, everySteps, frames, before, pending);
      if step % everySteps == 0 {
        ghost var n := frames;
        Flush(mars, step / 2);
      }
    }
  }

  lemma StepHeld(seen: seq<Seen>, s: Seen, e: nat, frames: seq<Frame>, pending: seq<(nat, nat)>,
                 pending': seq<(nat, nat)>)
    requires Holds(seen, e, frames, pending) && pending' == InsertAll(pending, s.written, s.w) && |s.after.queues| == 2
    ensures var n := |seen| + 1;
            e >= 1 && if n % e == 0 then Holds(seen + [s], e, frames + [Frame(n / 2, Processes(s.after), pending')], [])
            else Holds(seen + [s], e, frames, pending')
  {
    hide FrameAt, Writes, LastWriter, InsertAll, Stop;
    var f, n, all := |frames|, |seen| + 1, seen + [s];
    PendingStep(pending, seen[f * e..], s);
    assert all[f * e..] == seen[f * e..] + [s];
    FrameBoundary(f, e, n);
    forall k: nat | k < f
      ensures FrameAt(all, e, k, frames[k]) && Stop(|all|, e, k) == (k + 1) * e
    {
      FullFrameStays(seen, s, e, k, frames[k]);
    }
    if n % e == 0 {
      NewFrame(all, e, f, pending');
      NothingPending();
      assert all[(f + 1) * e..] == [];
    }
  }

  lemma FrameBoundary(f: nat, e: nat, n: nat)
    requires e >= 1 && e % 2 == 0 && f * e < n <= f * e + e
    ensures n % e == 0 <==> n == (f + 1) * e
    ensures (f + 1) * e == f * e + e && ((f + 1) * e) % 2 == 0
  {
    var h := e / 2;
    assert (f + 1) * (2 * h) == 2 * ((f + 1) * h);
    if n == f * e + e {
      Bits.ModUnique(n, e, f + 1, 0);
    } else {
      Bits.ModUnique(n, e, f, n - f * e);
    }
  }

  lemma PendingStep(pending: seq<(nat, nat)>, seen: seq<Seen>, s: Seen)
    requires Writes(pending, seen)
    ensures Writes(InsertAll(pending, s.written, s.w), seen + [s])
  {
    hide InsertAll, Ordered;
    assert (seen + [s])[..|seen|] == seen;
    InsertAllLooksUp(pending, s.written, s.w, 0);
    forall c: nat
      ensures Lookup(InsertAll(pending, s.written, s.w), c) == LastWriter(seen + [s], c)
    {
      InsertAllLooksUp(pending, s.written, s.w, c);
    }
  }

  lemma FullFrameStays(seen: seq<Seen>, s: Seen, e: nat, k: nat, frame: Frame)
    requires FrameAt(seen, e, k, frame) && Stop(|seen|, e, k) == (k + 1) * e
    ensures FrameAt(seen + [s], e, k, frame) && Stop(|seen + [s]|, e, k) == (k + 1) * e
  {
    hide Writes, Processes;
    var stop := (k + 1) * e;
    assert (seen + [s])[k * e..stop] == seen[k * e..stop];
  }

  lemma NewFrame(all: seq<Seen>, e: nat, f: nat, pending: seq<(nat, nat)>)
    requires e >= 1 && |all| == (f + 1) * e == f * e + e && |all[|all| - 1].after.queues| == 2
    requires Writes(pending, all[f * e..])
    ensures FrameAt(all, e, f, Frame((|all| + 1) / 2, Processes(all[|all| - 1].after), pending))
    ensures Stop(|all|, e, f) == (f + 1) * e
  {
    hide Writes, Processes;
    assert all[f * e..|all|] == all[f * e..];
  }

  lemma NothingPending()
    ensures Writes([], [])
  {
  }

  /** The last frame: written if it shows anything the one before it does not. */
  lemma EndHeld(seen: seq<Seen>, e: nat, frames: seq<Frame>, pending: seq<(nat, nat)>)
    requires seen != [] && Holds(seen, e, frames, pending) && |seen[|seen| - 1].after.queues| == 2
    ensures var cycle := (|seen| + 1) / 2;
            if pending != [] || frames == [] || frames[|frames| - 1].cycle != cycle
            then FramesOf(seen, e, frames + [Frame(cycle, Processes(seen[|seen| - 1].after), pending)])
            else FramesOf(seen, e, frames)
  {
    hide Writes, FrameAt, Stop;
    var f, n := |frames|, |seen|;
    if n == f * e {
      assert seen[f * e..] == [];
      OnlyNothing(pending);
      LastCycle(f, e, n);
      assert FrameAt(seen, e, f - 1, frames[f - 1]);
      FullFrame(seen, e, f - 1, frames[f - 1]);
    } else {
      if f > 0 {
        assert FrameAt(seen, e, f - 1, frames[f - 1]);
        FullFrame(seen, e, f - 1, frames[f - 1]);
        LastCycle(f, e, n);
      }
      PartFrame(seen, e, f, pending);
    }
  }

  lemma LastCycle(f: nat, e: nat, n: nat)
    requires e >= 1 && e % 2 == 0 && f * e <= n && n >= 1
    ensures (f * e) % 2 == 0 && (n == f * e ==> f > 0) && (n > f * e ==> (f * e + 1) / 2 != (n + 1) / 2)
  {
    var h := e / 2;
    assert f * (2 * h) == 2 * (f * h);
  }

  lemma FullFrame(seen: seq<Seen>, e: nat, k: nat, frame: Frame)
    requires FrameAt(seen, e, k, frame) && Stop(|seen|, e, k) == (k + 1) * e
    ensures frame.cycle == ((k + 1) * e + 1) / 2
  {
  }

  lemma PartFrame(seen: seq<Seen>, e: nat, f: nat, pending: seq<(nat, nat)>)
    requires f * e < |seen| < f * e + e && |seen[|seen| - 1].after.queues| == 2
    requires Writes(pending, seen[f * e..])
    ensures FrameAt(seen, e, f, Frame((|seen| + 1) / 2, Processes(seen[|seen| - 1].after), pending))
    ensures Stop(|seen|, e, f) == |seen|
  {
    hide Writes, Processes;
    assert (f + 1) * e == f * e + e;
    assert seen[f * e..|seen|] == seen[f * e..];
  }

  lemma OnlyNothing(pending: seq<(nat, nat)>)
    requires Writes(pending, [])
    ensures pending == []
  {
    if pending != [] {
      var found := Lookup(pending, pending[0].0);
      NobodyWrote(pending[0].0);
      assert false;
    }
  }

  // ---- a round and a match ----

  method TraceMove(mars: Mars, w: nat, rec: Recorder, ghost left: nat, step: nat, ghost seen: seq<Seen>)
    returns (alive: bool, ghost s: Seen)
    requires mars.Ready() && w < 2 && mars.queues[w] != [] && mars.queues[1 - w] != [] && left > 0
    requires rec.everySteps >= 1 && Holds(seen, rec.everySteps, rec.frames, rec.pending) && step == |seen| + 1
    modifies mars, mars.core, rec
    ensures mars.Ready() && s.after == mars.Abs() && Holds(seen + [s], rec.everySteps, rec.frames, rec.pending)
    ensures alive ==> mars.queues[w] != [] && mars.queues[1 - w] != []
    ensures Run(mars.cfg, old(mars.Abs()), w, left)
            == (if !alive then Played(mars.Abs(), Win(1 - w), 1)
                else var r := Run(mars.cfg, mars.Abs(), 1 - w, left - 1); r.(steps := r.steps + 1))
    ensures Watch(mars.cfg, old(mars.Abs()), w, left) == [s] + if alive then Watch(mars.cfg, mars.Abs(), 1 - w,
              left - 1) else []
  {
    hide Step, Holds;
    ghost var m := mars.Abs();
    StepKeepsValid(mars.cfg, m, w);
    var written;
    alive, written := mars.StepNoting(w);
    s := Seen(m, w, written, mars.Abs());
    rec.AfterStep(mars, w, written, step, seen, s);
  }

  /** `Mars.Battle` with the recorder watching. */
  method TraceBattle(mars: Mars, first: nat, rec: Recorder) returns (outcome: Outcome)
    requires mars.Ready() && first < 2 && mars.queues[0] != [] && mars.queues[1] != []
    requires rec.everySteps >= 1 && Holds([], rec.everySteps, rec.frames, rec.pending)
    modifies mars, mars.core, rec
    ensures mars.Ready() && (outcome.Win? ==> outcome.w < 2)
    ensures Played(mars.Abs(), outcome, mars.lastRoundSteps) == Run(mars.cfg, old(mars.Abs()), first,
              mars.cfg.maxCycles * 2)
    ensures Holds(Watch(mars.cfg, old(mars.Abs()), first, mars.cfg.maxCycles * 2), rec.everySteps, rec.frames,
              rec.pending)
  {
    hide Valid, Run, Watch, Holds;
    var left: nat := mars.cfg.maxCycles * 2;
    ghost var whole, all := Run(mars.cfg, mars.Abs(), first, left), Watch(mars.cfg, mars.Abs(), first, left);
    ghost var rest, seen: seq<Seen> := whole, [];
    var w: nat := first;
    var done: nat := 0;
    outcome := Tie;
    while left > 0
      invariant mars.Ready() && w < 2 && mars.queues[w] != [] && mars.queues[1 - w] != [] && done == |seen|
      invariant rest == Run(mars.cfg, mars.Abs(), w, left) && whole == rest.(steps := rest.steps + done)
      invariant all == seen + Watch(mars.cfg, mars.Abs(), w, left)
      invariant Holds(seen, rec.everySteps, rec.frames, rec.pending)
    {
      done := done + 1;
      var alive;
      ghost var s;
      alive, s := TraceMove(mars, w, rec, left, done, seen);
      seen := seen + [s];
      left := left - 1;
      if !alive {
        outcome := Win(1 - w);
        mars.lastRoundSteps := done;
        assert all == seen;
        return;
      }
      w := 1 - w;
      rest := Run(mars.cfg, mars.Abs(), w, left);
    }
    OutOfBudget(mars.cfg, mars.Abs(), w);
    NothingToWatch(mars.cfg, mars.Abs(), w);
    mars.lastRoundSteps := done;
    assert all == seen;
  }

  /** A round with the recorder watching, and its last frame. */
  method TraceRound(mars: Mars, a: Warrior, b: Warrior, pos: nat, first: nat, every: nat)
    returns (outcome: Outcome, frames: seq<Frame>)
    requires mars.Fits() && Players(mars.cfg, a, b) && ValidPspace(mars.cfg, mars.Abs())
    requires pos < mars.cs && first < 2 && every >= 1
    modifies mars, mars.core
    ensures mars.Ready() && (outcome.Win? ==> outcome.w < 2)
    ensures var p := Round(mars.cfg, old(mars.Abs()), a, b, 0, pos, first);
            mars.Abs() == p.m && outcome == p.outcome && mars.lastRoundSteps == p.steps
    ensures FramesOf(Watch(mars.cfg, Load(mars.cfg, old(mars.Abs()), a, b, 0, pos), first, mars.cfg.maxCycles * 2),
              2 * every, frames)
  {
    hide Run, Watch, ValidCore, LoadCode, FramesOf, Holds;
    var rec := new Recorder(every * 2);
    mars.Load(a, b, 0, pos);
    ghost var loaded := mars.Abs();
    outcome := TraceBattle(mars, first, rec);
    RoundSeen(mars.cfg, loaded, first);
    FinishKeepsValidIff(mars.cfg, mars.Abs(), outcome);
    match outcome {
      case Win(x) => mars.lastResult := mars.lastResult[x := 1][1 - x := 0];
      case Tie => mars.lastResult := [2, 2];
    }
    LastFrame(mars, rec, Watch(mars.cfg, loaded, first, mars.cfg.maxCycles * 2));
    frames := rec.frames;
  }

  method LastFrame(mars: Mars, rec: Recorder, ghost seen: seq<Seen>)
    requires seen != [] && Holds(seen, rec.everySteps, rec.frames, rec.pending)
    requires |seen| == mars.lastRoundSteps && |seen[|seen| - 1].after.queues| == 2
    requires seen[|seen| - 1].after.queues == mars.queues
    modifies rec
    ensures FramesOf(seen, rec.everySteps, rec.frames)
  {
    hide Holds, FramesOf;
    EndHeld(seen, rec.everySteps, rec.frames, rec.pending);
    var cycle := (mars.lastRoundSteps + 1) / 2;
    if rec.pending != [] || rec.frames == [] || rec.frames[|rec.frames| - 1].cycle != cycle {
      rec.Flush(mars, cycle);
    }
  }

  /** A round has at least one instruction; the last sighting is its end. */
  lemma RoundSeen(cfg: Config, m: Machine, w: nat)
    requires Valid(cfg, m) && w < 2 && cfg.maxCycles >= 1
    ensures var seen, p := Watch(cfg, m, w, cfg.maxCycles * 2), Run(cfg, m, w, cfg.maxCycles * 2);
            seen != [] && |seen| == p.steps && seen[|seen| - 1].after == p.m && |p.m.queues| == 2
  {
    hide Step;
    WatchSeesTheRound(cfg, m, w, cfg.maxCycles * 2);
  }

  datatype RoundSummary = RoundSummary(round: nat, first: nat, position: nat, winner: Option<nat>, endCycle: nat)

  datatype End = End(cycle: nat, winner: Option<nat>, processes: (nat, nat))

  /** `start`: warrior, load address and length of each. */
  datatype Recording = Recording(round: nat, every: nat, start: seq<(nat, nat, nat)>, frames: seq<Frame>, end: End)

  datatype Trace = Trace(score: Score, rounds: seq<RoundSummary>, recorded: seq<Recording>)

  function Winner(o: Outcome): Option<nat> {
    match o
    case Win(w) => Some(w)
    case Tie => None
  }

  /** Every instruction of round `k`. */
  function SeenAt(cfg: Config, a: Warrior, b: Warrior, seed: int, k: nat): seq<Seen>
    requires Players(cfg, a, b) && Rng.Int32(seed)
  {
    Watch(cfg, Load(cfg, Before(cfg, a, b, seed, k), a, b, 0, Position(cfg, Rng.Drawn(seed, k))), k % 2,
        cfg.maxCycles * 2)
  }

  ghost predicate SummaryOf(cfg: Config, a: Warrior, b: Warrior, seed: int, k: nat, s: RoundSummary)
    requires Players(cfg, a, b) && Rng.Int32(seed)
  {
    var p := RoundAt(cfg, a, b, seed, k);
    s == RoundSummary(k + 1, k % 2, Position(cfg, Rng.Drawn(seed, k)), Winner(p.outcome), (p.steps + 1) / 2)
  }

  ghost predicate RecordingOf(cfg: Config, a: Warrior, b: Warrior, seed: int, every: nat, k: nat, r: Recording)
    requires Players(cfg, a, b) && Rng.Int32(seed)
  {
    var p := RoundAt(cfg, a, b, seed, k);
    && r.round == k + 1 && r.every == every
    && r.start == [(0, 0, |a.code|), (1, Position(cfg, Rng.Drawn(seed, k)), |b.code|)]
    && FramesOf(SeenAt(cfg, a, b, seed, k), 2 * every, r.frames)
    && |p.m.queues| == 2 && r.end == End((p.steps + 1) / 2, Winner(p.outcome), Processes(p.m))
  }

  /** What a summary says: the round's number from 1, who opened it, where the
      second warrior was loaded, who won it, and half its instructions rounded up. */
  lemma SummaryReads(cfg: Config, a: Warrior, b: Warrior, seed: int, k: nat, s: RoundSummary)
    requires Players(cfg, a, b) && Rng.Int32(seed) && SummaryOf(cfg, a, b, seed, k, s)
    ensures var p := RoundAt(cfg, a, b, seed, k);
            && s.round == k + 1 && s.first == k % 2
            && s.position == cfg.minDistance + Rng.Drawn(seed, k) % (cfg.coreSize + 1 - 2 * cfg.minDistance)
            && (s.winner.None? <==> p.outcome == Tie) && (s.winner.Some? ==> p.outcome == Win(s.winner.value))
            && 2 * s.endCycle - 1 <= p.steps <= 2 * s.endCycle
  {
    hide RoundAt, Rng.Drawn;
    PositionIs(cfg, Rng.Drawn(seed, k));
  }

  /** And a recorded round: where both warriors were loaded and how long they are,
      how it ended and with how many processes. */
  lemma RecordingReads(cfg: Config, a: Warrior, b: Warrior, seed: int, every: nat, k: nat, r: Recording)
    requires Players(cfg, a, b) && Rng.Int32(seed) && RecordingOf(cfg, a, b, seed, every, k, r)
    ensures var p := RoundAt(cfg, a, b, seed, k);
            var pos := cfg.minDistance + Rng.Drawn(seed, k) % (cfg.coreSize + 1 - 2 * cfg.minDistance);
            && r.round == k + 1 && r.every == every && r.start == [(0, 0, |a.code|), (1, pos, |b.code|)]
            && (r.end.winner.None? <==> p.outcome == Tie)
            && (r.end.winner.Some? ==> p.outcome == Win(r.end.winner.value))
            && |p.m.queues| == 2 && r.end.processes == (|p.m.queues[0]|, |p.m.queues[1]|)
  {
    hide RoundAt, Rng.Drawn, FramesOf, SeenAt;
    PositionIs(cfg, Rng.Drawn(seed, k));
  }

  /** The rounds recorded among the first `n`, in order. */
  function Recorded(record: seq<nat>, n: nat): seq<nat> {
    if n == 0 then [] else Recorded(record, n - 1) + if n in record then [n - 1] else []
  }

  /** Round `k` of those played is among the rounds asked for, which count from 1. */
  predicate Asked(record: seq<nat>, n: nat, k: nat) {
    k < n && k + 1 in record
  }

  /** Those are recorded, each once and in order. */
  lemma {:induction false} RecordedAre(record: seq<nat>, n: nat)
    ensures forall i :: 0 <= i < |Recorded(record, n)| ==> Asked(record, n, Recorded(record, n)[i])
    ensures forall k: nat :: Asked(record, n, k) ==> k in Recorded(record, n)
    ensures forall i, j :: 0 <= i < j < |Recorded(record, n)| ==> Recorded(record, n)[i] < Recorded(record, n)[j]
  {
    if n > 0 {
      RecordedAre(record, n - 1);
      var before, ks := Recorded(record, n - 1), Recorded(record, n);
      assert forall i :: 0 <= i < |before| ==> Asked(record, n - 1, before[i]);
      forall k: nat | Asked(record, n, k)
        ensures k in ks
      {
        assert Asked(record, n - 1, k) || ks[|before|] == k;
      }
    }
  }

  /** The rounds whose summary names this winner, or none. */
  ghost function Named(rounds: seq<RoundSummary>, winner: Option<nat>): set<nat> {
    set k: nat | k < |rounds| && rounds[k].winner == winner
  }

  /** The score is that of the summaries. */
  ghost predicate CountsWinners(s: Score, rounds: seq<RoundSummary>) {
    s.w1 == |Named(rounds, Some(0))| && s.w2 == |Named(rounds, Some(1))| && s.ties == |Named(rounds, None)|
  }

  lemma WinnersCounted(cfg: Config, a: Warrior, b: Warrior, seed: int, s: Score, rounds: seq<RoundSummary>)
    requires Players(cfg, a, b) && Rng.Int32(seed)
    requires s == Play(cfg, Blank(cfg), a, b, |rounds|, seed).score
    requires forall k :: 0 <= k < |rounds| ==> SummaryOf(cfg, a, b, seed, k, rounds[k])
    ensures CountsWinners(s, rounds)
  {
    hide Play, RoundAt, Ending, Named, SummaryOf;
    PlayCounts(cfg, Blank(cfg), a, b, |rounds|, seed);
    SameRounds(cfg, a, b, seed, rounds, Win(0), Some(0));
    SameRounds(cfg, a, b, seed, rounds, Win(1), Some(1));
    SameRounds(cfg, a, b, seed, rounds, Tie, None);
  }

  lemma SameRounds(cfg: Config, a: Warrior, b: Warrior, seed: int, rounds: seq<RoundSummary>, o: Outcome,
                   winner: Option<nat>)
    requires Players(cfg, a, b) && Rng.Int32(seed) && winner == (match o case Win(w) => Some(w) case Tie => None)
    requires forall k :: 0 <= k < |rounds| ==> SummaryOf(cfg, a, b, seed, k, rounds[k])
    ensures Ending(cfg, a, b, seed, o, 0, |rounds|) == Named(rounds, winner)
  {
    hide Players, RoundAt;
    forall k: nat | k < |rounds|
      ensures rounds[k].winner == match RoundAt(cfg, a, b, seed, k).outcome case Win(w) => Some(w) case Tie => None
    {
      assert SummaryOf(cfg, a, b, seed, k, rounds[k]);
    }
  }

  /** A match like `Mars.Play`, every round summarised, those in `record`
      recorded. */
  method TraceMatch(cfg: Config, a: Warrior, b: Warrior, rounds: nat, seed: int, record: seq<nat>, every: nat)
    returns (out: Trace)
    requires Players(cfg, a, b) && Rng.Int32(seed) && every >= 1
    ensures out.score == Play(cfg, Blank(cfg), a, b, rounds, seed).score
    ensures |out.rounds| == rounds
    ensures forall k :: 0 <= k < rounds ==> SummaryOf(cfg, a, b, seed, k, out.rounds[k])
    ensures CountsWinners(out.score, out.rounds)
    ensures var ks := Recorded(record, rounds);
            |out.recorded| == |ks| && forall i :: 0 <= i < |ks| ==>
                RecordingOf(cfg, a, b, seed, every, ks[i], out.recorded[i])
  {
    hide Valid, ValidPspace, Run, Match.Round, Match.BeginMatch, NormalisedWarrior, Rng.Next, Load, Watch, FramesOf;
    hide SummaryOf, RecordingOf, CountsWinners;
    var mars := new Mars(cfg);
    NewMatch(cfg, mars.Abs(), a, b);
    mars.BeginMatch(a, b);
    ghost var whole := Rounds(cfg, mars.Abs(), a, b, 0, rounds, seed, NOSCORE).score;
    var score := NOSCORE;
    var drawn := seed;
    var summaries: seq<RoundSummary>, recorded: seq<Recording> := [], [];
    for k := 0 to rounds
      invariant mars.cfg == cfg && fresh(mars) && fresh(mars.core) && mars.Fits()
      invariant mars.Abs() == Before(cfg, a, b, seed, k)
      invariant Rng.Int32(drawn) && drawn == Rng.Drawn(seed, k)
      invariant Rounds(cfg, mars.Abs(), a, b, k, rounds, drawn, score).score == whole
      invariant |summaries| == k && forall i :: 0 <= i < k ==> SummaryOf(cfg, a, b, seed, i, summaries[i])
      invariant var ks := Recorded(record, k);
                |recorded| == |ks| && forall i :: 0 <= i < |ks| ==>
                    RecordingOf(cfg, a, b, seed, every, ks[i], recorded[i])
    {
      var pos := cfg.minDistance + drawn % (cfg.coreSize + 1 - 2 * cfg.minDistance);
      assert pos == Position(cfg, drawn);
      drawn := Rng.Next(drawn);
      var recording := k + 1 in record;
      var summary, rec := TraceOne(mars, a, b, seed, k, pos, recording, every);
      summaries := summaries + [summary];
      if recording {
        recorded := recorded + [rec.value];
      }
      score := CountWinner(score, summary.winner);
    }
    WinnersCounted(cfg, a, b, seed, score, summaries);
    out := Trace(score, summaries, recorded);
  }

  function CountWinner(s: Score, w: Option<nat>): Score {
    if w.None? then s.(ties := s.ties + 1)
    else if w.value == 0 then s.(w1 := s.w1 + 1)
    else s.(w2 := s.w2 + 1)
  }

  method TraceOne(mars: Mars, a: Warrior, b: Warrior, ghost seed: int, k: nat, pos: nat, recording: bool, every: nat)
      returns (summary: RoundSummary, rec: Option<Recording>)
    requires mars.Fits() && Players(mars.cfg, a, b) && Rng.Int32(seed) && every >= 1
    requires mars.Abs() == Before(mars.cfg, a, b, seed, k) && pos == Position(mars.cfg, Rng.Drawn(seed, k))
    modifies mars, mars.core
    ensures mars.Fits() && mars.Abs() == RoundAt(mars.cfg, a, b, seed, k).m
    ensures SummaryOf(mars.cfg, a, b, seed, k, summary)
    ensures summary.winner == Winner(RoundAt(mars.cfg, a, b, seed, k).outcome)
    ensures if recording then rec.Some? && RecordingOf(mars.cfg, a, b, seed, every, k, rec.value) else rec.None?
  {
    hide Run, Load, Watch, FramesOf, Match.Round, Before;
    rec := None;
    var outcome, frames;
    if recording {
      outcome, frames := TraceRound(mars, a, b, pos, k % 2, every);
    } else {
      outcome := mars.Round(a, b, 0, pos, k % 2);
    }
    var endCycle := (mars.lastRoundSteps + 1) / 2;
    summary := RoundSummary(k + 1, k % 2, pos, Winner(outcome), endCycle);
    if recording {
      rec := Some(Recording(k + 1, every, [(0, 0, |a.code|), (1, pos, |b.code|)], frames,
                            End(endCycle, Winner(outcome), (|mars.queues[0]|, |mars.queues[1]|))));
    }
  }
}
