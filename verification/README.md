# Corewar, verified

A Dafny model of the Core War system `cw`: the two MARS simulators, the schedulers
that play many matches, recording and replay, the Redcode assembler and the hill,
with proofs of what its documentation and tests promise.

## Layout

- `Redcode.dfy`, `Configs.dfy`: instructions, warriors, match configurations.
- `Semantics.dfy`, `MachineFacts.dfy`, `Match.dfy`: the simulator as a state machine over
  values, what each step keeps, and rounds and matches over it. This is the
  specification both engines are proved against.
- `Instructions.dfy`, `Scores.dfy`: what that specification says, in numbers alone: every
  opcode, modifier and mode, a battle move by move, and what a score counts.
- `Mars.dfy`: the plain engine, imperative, proved against the specification.
- `Bits.dfy`, `Cells.dfy`, `Fast.dfy`, `Engine.dfy`: packed cells, ring buffers, 16- and
  32-bit arithmetic, the unrolled round loop, and the engine around them.
- `Versus.dfy`: both engines report the same for every match.
- `Lane.dfy`, `Multi.dfy`, `Pool.dfy`: two matches interleaved instruction by instruction,
  and matches on any number of threads.
- `Ring.dfy`: the core is a ring. `Placement.dfy`, `Rng.dfy`: where warriors are loaded, and
  the generator behind it. `TwoCells.dfy`: the smallest core accepted, on which the engines part.
- `Observe.dfy`, `Replay.dfy`, `Trace.dfy`: what an observer sees, the recording a page
  replays, and frames of writes.
- `Text.dfy`, `Eval.dfy`, `EvalClass.dfy`, `Expressions.dfy`, `Chains.dfy`: tokens, the expression
  evaluator as functions of the text and as the source runs it, and what expressions mean, with
  parentheses and without.
- `AsmText.dfy`, `Symbols.dfy`, `Encoding.dfy`, `Listing.dfy`: lines without symbols and with them,
  in both passes, as functions; the listing. `Asm.dfy`: the assembler as the source runs it, reading
  and two passes, proved against them.
- `Labels.dfy`, `Expansion.dfy`: what labels mean whichever pass resolves them, and what a FOR means.
  `Sources.dfy`: two passes are one. `Programs.dfy`: programs as they are written by hand.
  `Reading.dfy`: which lines of a text are the program's. `Assertions.dfy`: what assertions mean.
- `Ranking.dfy`, `Hill.dfy`, `HillRules.dfy`, `HillLimits.dfy`: the table, challenges and the audit,
  what the rules mean, and when a trim keeps the order.

## What is proved, in short

- One step of the fast engine is one step of the plain one, for every opcode, modifier
  and pair of modes, and so are whole matches with P-space carried over. What each step does
  is spelled out opcode by opcode, and a score is the number of rounds won, lost and tied.
- Interleaving and threading change nothing: every job's score is that of the job played
  alone, and the instructions add up; both schedulers end.
- A recorded round reads as its cells and replays to exactly its final core and queues, frames
  show the last writer of every cell, and where the core begins is nothing a match depends on.
- Assembling ends on every text, keeping depth, symbols and counters; both passes do to labels,
  EQU and FOR what a line-by-line definition says. Whole operands come out the same whichever pass
  resolves their labels, so that whole sources come out as in one pass with all labels known; a FOR
  writes its lines for 1, 2, 3 and so on, or passes over them; a program written with labels assembles
  to the instructions they resolve to, starting where END says, and the listing of a warrior back to
  the warrior.
- Parenthesised expressions get their 64-bit value, with the exact status of every one of them; without
  parentheses operators group as usual where they fall and then rise in strength, and up to three of
  them exactly as stated.
- Of any text the program is what stands between its marks, comments aside; a false assertion refuses it.
- What a challenge saves passes the hill's audit, along any run and any edits of the rules; the table
  has more points first, then the later arrival or the earlier.

## Where the source needs a condition

- A core of two cells is accepted, but a tie stores the number 2, which is not below the core
  size. `Placement.RangeKeptIff` proves that three cells are exactly what is needed.
  `TwoCells.TwoCellsSplit` is a match on which the fast engine's next index then leaves the core
  and the plain engine goes on; `TwoCells.IndicesInRangeIff` and `TwoCells.EnginesAgreeIff` prove
  that three cells are exactly what is needed there too. Engines and schedulers are therefore
  modelled on accepted configurations of at least three cells.
- The hill trims once more after its last ranking. When nobody joined and the size of the hill
  was lowered, the order saved need not be the order of the members left, and the audit
  objects: `HillLimits.ChallengeMisorders` is such a hill for every size of two or more, and
  `HillLimits.ChallengeVerifiesIff` proves the guard exact.
- Operators without parentheses do not always group as usual: `a - b * c - d` is `a - (b * c - d)`, and
  `a + b * c == d` is an error. `Chains.ThreeOperators` says of every three operators how they group,
  and `Chains.SumRunsOn` is an example in numbers.
- The evaluator's overflow tests miss the results that turn the least 64-bit integer round.
  `Expressions.LeastIntegerSlips` is an example and `Expressions.FirstSlip` the family;
  `Expressions.FlagsIff`, `Expressions.OverflowIff` and `Expressions.StatusIs` are exact, for all
  operands and all expressions.

The file names, lines and constants below are those of the repository.

## Model

| member | source | states |
|---|---|---|
| `MachineFacts.FoldIsModulo` | src/mars.rs:169-190 | one conditional subtraction (or addition) is the remainder modulo the core size, for sums, differences, increments and decrements of addresses |
| `MachineFacts.ExecuteKeepsValid` | src/mars.rs:297-511 | every opcode under every modifier leaves fields and P-space below the core size, changes no queue, and changes no cell but the target, and that only when it reports it |
| `MachineFacts.ExecuteQueues` | src/mars.rs:297-511 | an instruction queues at most two processes, two only when there is room |
| `MachineFacts.EvaluateFrame` | src/mars.rs:225-277 | evaluating an operand changes only the cell it reports, and only numbers of it |
| `MachineFacts.StepKeepsValid` | src/mars.rs:286-511 | from any well-formed machine one step leaves a well-formed machine: fields, program counters and P-space below the core size, queues within the process limit, the other warrior's queue untouched; a warrior is alive exactly when it has a process |
| `MachineFacts.StepFrame` | src/mars.rs:42-56 | no cell changes in a step that the step does not report; at most three are reported |
| `MachineFacts.StepQueue` | src/mars.rs:286-300 | a step takes the head of the queue and appends at most two behind the rest |
| `Instructions.EvaluateFinds` | src/mars.rs:225-277 | the eight address modes spelled out: which cell the pointer leads to, which number is changed before or after it is read, and what the operand's two numbers are |
| `Instructions.EveryStep` | src/mars.rs:286-300 | every process finds its two operands in exactly one way, so that each of its steps is of one of the kinds below; a warrior without processes is out |
| `Instructions.Control` | src/mars.rs:302-455 | DAT ends the process; NOP goes on at the next cell, JMP at the A operand's, SPL at both while there is room |
| `Instructions.JumpsOnZero` | src/mars.rs:411-426 | JMZ goes to the A operand's cell exactly if the B operand's numbers the modifier looks at are all zero, JMN exactly if not |
| `Instructions.DecrementsAndJumps` | src/mars.rs:427-449 | DJN takes one from the numbers the modifier names around the core and goes to the A operand's cell unless all of them were one |
| `Instructions.SkipsIfLess` | src/mars.rs:456-466 | SLT goes on two cells further exactly if the numbers paired by the modifier are less |
| `Instructions.SkipsIfEqual` | src/mars.rs:488-508 | CMP and SEQ skip exactly if the paired numbers, or with I whole cells, are equal, SNE exactly if not |
| `Instructions.Moves` | src/mars.rs:306-333 | the cell MOV leaves under each of the seven modifiers, and where the process goes |
| `Instructions.Calculates` | src/mars.rs:334-360 | the sums, differences and products ADD, SUB and MUL leave, around the core, operand by operand |
| `Instructions.Divides` | src/mars.rs:361-409 | the quotients and remainders DIV and MOD leave; a number divided by zero stays and ends the process, the other one is divided all the same |
| `Instructions.Reads` | src/mars.rs:467-478 | LDP brings the P-space cell its operand names around the P-space: cell 0 the warrior's own result, the others its bank's |
| `Instructions.Stores` | src/mars.rs:479-487 | STP writes that cell and none of the core |
| `Configs.PspaceSizeDivides` | src/asm.rs:139-147 | the P-space size times some divisor up to 16 is the core size, and no larger divisor up to 16 exists |
| `Configs.CheckReads` | src/asm.rs:106-137 | what the check accepts, bound by bound, and what each refusal means |
| `Match.FinishKeepsValidIff` | src/mars.rs:583-592 | storing a round's result keeps P-space in range exactly when it is not a tie on a core of two cells |
| `Match.LoadForgets` | src/mars.rs:192-205 | loading depends on nothing an earlier round left but P-space |
| `Match.PlayForgetsThePast` | src/fast.rs:754-778 | from any two machines a match gives the same score and instruction count, and the same machine once a round was played |
| `Match.NewMatch` | src/mars.rs:111-147 | of a new engine only the empty core and queues reach a match |
| `Scores.RunIsBattle` | src/mars.rs:566-582 | a battle move by move: warriors take turns, it is won by the one whose opponent has no process left after moving, and tied with the instructions used up |
| `Scores.RoundPlayed` | src/mars.rs:620-643 | round k of a match: the second warrior's place and who opens, every cell of the core before the first move, the battle, the result each warrior finds next, and P-space blank or from the round before |
| `Scores.PlayCounts` | src/mars.rs:620-643 | a match's score is the number of rounds the first warrior won, the second won, and nobody won; its instructions are the rounds' and its machine the last round's |
| `Rng.Next` | src/mars.rs:599-606 | Schrage's decomposition in truncating arithmetic gives 16807 times the seed modulo 2^31-1, the nonnegative residue, for every i32, within i32 |
| `Rng.ZeroOnlyFromZero` | src/mars.rs:599-606 | the next seed is 0 exactly when the seed is divisible by the modulus |
| `Rng.SequenceAlive` | src/mars.rs:599-606 | from a seed not divisible by the modulus the n-th seed is 16807^n times it modulo 2^31-1, in 1..2^31-2 |
| `Placement.LoadedApart` | src/mars.rs:628-637 | in every round of every accepted match, any seed: both gaps are at least the minimum distance and the core is exactly the two warriors, unwrapped and disjoint, among empty cells |
| `Placement.CodeInPlace` | src/mars.rs:192-205 | code that fits before the end of the core is written cell for cell, the rest unchanged |
| `Placement.RangeKeptIff` | src/mars.rs:583-592 | for an accepted configuration, all rounds of all warriors keep numbers below the core size exactly when the core has at least three cells |
| `Placement.TwoCellsLeaveRange` | src/mars.rs:587-590 | on two cells two idle warriors tie and leave the result 2 out of range |
| `Placement.IdlersTie` | src/mars.rs:566-581 | warriors that only execute NOP tie after the whole budget |
| `TwoCells.IncrementsAgreeIff` | src/fast.rs:292-303 | the increment of the plain engine's operand code and that of the fast one's agree exactly on numbers below the core size |
| `TwoCells.EvaluateOnIs` | src/fast.rs:267-309 | on numbers in range both engines' operand code, each with its own increment, is the specification's evaluation and no index leaves the core |
| `TwoCells.MatchOnIs` | src/mars.rs:620-643 | from three cells on, matches over that operand code are the specification's matches, on both sides |
| `TwoCells.TwoCellsSplit` | src/fast.rs:292-303 | on two cells, any seed and limits: a match of two one-instruction warriors in which, after a tie, LDP loads the 2, the fast postincrement makes it 3 and the next index is not below the core size, while the plain engine plays the match to its end |
| `TwoCells.IndicesInRangeIff` | src/fast.rs:254-263 | in all matches under an accepted configuration every index of the fast engine is below the core size, exactly when the core has at least three cells |
| `TwoCells.EnginesAgreeIff` | tests/props.rs:95-124 | and exactly then the two engines agree on every match |
| `MarsEngine.Mars.BeginMatch` | src/mars.rs:128-147 | banks shared exactly between equal PINs, blank P-space, cell 0 at the core size less one |
| `MarsEngine.Mars.Load` | src/mars.rs:192-205 | core, queues and P-space after loading are those of the specification |
| `MarsEngine.Mars.Operand` | src/mars.rs:225-277 | pointer, address, cell read, notes and core after side effects, for all eight modes |
| `MarsEngine.Mars.Mov` | src/mars.rs:306-333 | MOV writes the selected numbers, or the whole cell, for all seven modifiers |
| `MarsEngine.Mars.Arithmetic` | src/mars.rs:334-360 | ADD, SUB and MUL combine the number pairs the modifier selects, modulo the core size |
| `MarsEngine.Mars.Division` | src/mars.rs:361-409 | DIV and MOD write the quotients whose divisor is not zero; the process dies when one is |
| `MarsEngine.Mars.Djn` | src/mars.rs:427-449 | DJN decrements the selected numbers and says whether one is left non-zero |
| `MarsEngine.Mars.Execute` | src/mars.rs:297-511 | the big match has, for each opcode, the effect that the lemmas of Instructions spell out |
| `MarsEngine.Mars.StepNoting` | src/mars.rs:286-511 | one instruction of the plain engine, its notes included, is one step of the specification, which Instructions spells out |
| `MarsEngine.Mars.Battle` | src/mars.rs:566-582 | the loop of moves plays the specification's run and counts its instructions |
| `MarsEngine.Mars.Round` | src/mars.rs:556-593 | a round, its result left in P-space, is the specification's |
| `MarsEngine.Mars.Play` | src/mars.rs:620-643 | a match's machine, score and instructions are the specification's, and the score counts the rounds each warrior won and those nobody won |
| `Cells.DecodeEncode` | src/fast.rs:119-160 | packing an instruction of a core up to 65535 cells and unpacking it gives it back |
| `Cells.EncodeDecode` | src/fast.rs:119-160 | unpacking a valid cell and packing it gives the cell back: equal cells are equal instructions |
| `Cells.DispatchCovers` | build.rs:15-21 | every byte a valid cell holds as opcode and modifier has its own arm, which passes on exactly that pair |
| `Cells.ZeroIsEmpty` | src/fast.rs:163-182 | the zero cell is the empty instruction |
| `Cells.RingPush` | src/fast.rs:238-243 | storing behind a ring that is not full appends to the queue it holds, overwriting none of it |
| `Cells.RingPop` | src/fast.rs:230-236 | taking from a non-empty ring takes the queue's head |
| `FastEngine.Run.Operand` | src/fast.rs:267-309 | operand evaluation on packed cells gives the specification's pointer, address, numbers and core |
| `FastEngine.Run.ProductFits` | src/fast.rs:366-374 | the 32-bit product of two fields never wraps |
| `FastEngine.Run.SetPspace` | src/fast.rs:322-335 | writing P-space is the specification's, cell 0 apart and banks shared |
| `FastEngine.Run.Exec` | src/fast.rs:346-572 | each opcode on packed cells and ring buffers has the effect that the lemmas of Instructions spell out, reported alive |
| `FastEngine.Run.Step` | src/fast.rs:337-345 | one fast step, from any well-formed buffers, is one step of the specification on what they denote, with the same alive flag; Instructions spells it out |
| `FastEngine.Run.Battle` | src/fast.rs:578-600 | the loop unrolled by pairs, counting its budget down, plays the specification's run |
| `Engines.UnpackCompile` | src/fast.rs:187-206 | compiling keeps every warrior of a core up to 65535 cells |
| `Engines.Engine.constructor` | src/fast.rs:626-651 | a new engine's buffers are big enough for the process limit and fit together, its core empty |
| `Engines.Engine.BeginMatch` | src/fast.rs:657-664 | P-space of a new match, banks shared between equal PINs, in reused buffers |
| `Engines.Engine.Load` | src/fast.rs:666-680 | the wrapping writes of both warriors give the specification's loaded core |
| `Engines.Engine.StartRound` | src/fast.rs:682-690 | a round starts as the specification loads it, whatever the queue buffers held |
| `Engines.Engine.FinishRound` | src/fast.rs:717-727 | the result goes to P-space cell 0 and the instructions to the count |
| `Engines.Engine.Round` | src/fast.rs:729-740 | a round on the fast engine is the specification's |
| `Engines.Engine.Play` | src/fast.rs:754-778 | a match on the fast engine has the specification's score, instructions and machine, and the score counts the rounds each warrior won and those nobody won |
| `Versus.FastEqualsPlain` | tests/props.rs:95-124 | score, instructions, core and P-space of a match agree between both engines, for every accepted configuration of at least three cells, any warriors, rounds and seed |
| `CoreRing.EvaluateTurns` | src/mars.rs:225-277 | operand evaluation on a turned core is the turned evaluation: same pointer and numbers, addresses turned |
| `CoreRing.StepTurns` | src/mars.rs:286-511 | every instruction commutes with turning core and queues, for all opcodes, modifiers and modes |
| `CoreRing.RunTurns` | src/mars.rs:566-582 | so does playing a round out: same outcome after as many instructions |
| `CoreRing.LoadTurns` | src/mars.rs:192-205 | loading both warriors further on gives the turned core |
| `CoreRing.RoundTurns` | tests/props.rs:37-51 | a round loaded d cells further on has the same outcome, instructions and P-space, its final core and queues turned by d |
| `CoreRing.MatchTurns` | src/mars.rs:620-643 | a match whose rounds are loaded at any shifts has the same score, instructions and P-space |
| `Lanes.Lane.StartJob` | src/multi.rs:92-114 | beginning the next job, and the rounds this ends at once, keeps every lane a prefix of its jobs played alone |
| `Lanes.Lane.StartRound` | src/multi.rs:116-137 | a started round is on track of the job played alone, owing a move exactly when warrior 1 opens |
| `Lanes.Lane.Settle` | src/multi.rs:141-167 | paying an owed move leaves warrior 0 to move, on track, or no job |
| `Lanes.Lane.PayMove` | src/multi.rs:150-166 | the owed move is warrior 1's next move of the round |
| `Lanes.Lane.EndRound` | src/multi.rs:170-194 | an ended round is scored, and jobs and rounds left strictly decrease |
| `Lanes.Lane.Single` | src/multi.rs:256-274 | the lane left alone plays its round to the end; what is left decreases |
| `Lanes.FreshMatch` | src/multi.rs:92-114 | a job begun on a used engine is all of the job still to play |
| `Lanes.AloneCounts` | src/multi.rs:178-190 | a job's score counts the rounds each of its two warriors won and those nobody won, and its instructions are its rounds' |
| `Lanes.NowAdvances` | src/multi.rs:197-247 | carrying a round on by some moves leaves what the job still brings |
| `MultiLane.Interleave` | src/multi.rs:209-241 | the interleaved hot loop stops with one lane's round ended and the other carried on, both as played alone, the owed move known |
| `MultiLane.Multi.BothBusy` | src/multi.rs:197-253 | a turn with both lanes busy ends a round, keeps both lanes on track and every job handed to one lane |
| `MultiLane.Multi.PlayAll` | src/multi.rs:68-90 | every job's score is that of the job played on its own and counts the rounds its warriors won, the instructions are those of playing them one after another; the loop ends because every turn decreases the rounds left |
| `MultiLane.AllPlayed` | src/multi.rs:68-90 | with no lane busy, every job's score is in place |
| `Pool.FetchKeeps` | src/pool.rs:36-38 | taking the counter's next value keeps the invariant: each job handed out claimed exactly once |
| `Pool.FinishKeeps` | src/pool.rs:39-40 | so does a match ending, its score and instructions the job's own |
| `Pool.InvThroughout` | src/pool.rs:28-45 | in every state of every interleaving of any number of workers: claims, scores and instructions add up |
| `Pool.EveryStepCounts` | src/pool.rs:36-41 | every step of every worker decreases the steps left |
| `Pool.RunsEnd` | src/pool.rs:36-41 | no run is longer than two steps a job and one a worker, and until all have stopped one can move |
| `Pool.EveryRunAgrees` | src/pool.rs:13-15 | however they interleave, all workers stopped: each job played exactly once, with its own score, and the sequential instruction total |
| `Pool.Join` | src/pool.rs:46-52 | joining puts every score at its job's index and sums the instructions |
| `Pool.PlayJob` | src/pool.rs:33-40 | an engine used before plays a job as a fresh one |
| `Pool.PlayOneByOne` | src/pool.rs:18-25 | one thread: the jobs' own scores in order, the instructions theirs |
| `Pool.PlayAll` | src/pool.rs:16-53 | the result for any thread count and any schedule is the sequential one, and every score counts the rounds its job's warriors won |
| `Observed.WatchSeesTheRound` | src/mars.rs:541-582 | an observer sees as many instructions as the round counts, and the last leaves the machine the round ends in |
| `Observed.WatchIsMoves` | src/mars.rs:541-582 | what it is shown at move k is the k-th move of the battle: who moved, the machine before and after, and the cells written |
| `Replays.CellWordIsSum` | wasm/src/lib.rs:40-46 | the shifted codes do not overlap and fit a 32-bit word |
| `Replays.WordsDetermineCell` | wasm/src/lib.rs:40-46 | two instructions with the same three words are the same |
| `Replays.CellWordsRead` | wasm/src/lib.rs:40-46 | what a reader gets from a cell's words: opcode, modifier and both modes at their places in lists in the source's order, then the A number and the B number |
| `Replays.CoreWordsRead` | wasm/src/lib.rs:235-239 | so from a core's words, three a cell, in the order of the cells |
| `Replays.EventReads` | wasm/src/lib.rs:246-265 | and from an instruction's words: who moved, from where, what was queued, and each written cell with its new contents |
| `Replays.CoreWordsDetermineCore` | wasm/src/lib.rs:235-239 | two cores with the same words are the same |
| `Replays.CoreWordsUpdate` | wasm/src/lib.rs:463-467 | replacing a cell replaces its three words |
| `Replays.HeaderReads` | wasm/src/lib.rs:455-457 | the replay's masks and shifts read back what the header was made of |
| `Replays.DistinctCells` | wasm/src/lib.rs:251-254 | sorting and deduplicating gives the written cells once each, ascending |
| `Replays.StepIsRecordable` | wasm/src/lib.rs:246-265 | for every step: the pushed count is right, at most three distinct cells, and overwriting those gives the core after |
| `Replays.EventReplays` | wasm/src/lib.rs:451-469 | the words of one instruction take the page from the machine before it to the machine after it, whatever follows |
| `Replays.BattleReplays` | wasm/src/lib.rs:451-469 | the words of any battle take the page showing its start to the page showing its end |
| `Replays.RoundReplays` | wasm/src/lib.rs:514-537 | replaying any round from the loaded core and the initial heads rebuilds exactly the end core and both queues |
| `Replays.Replay` | wasm/src/lib.rs:451-469 | the loop over the words computes the replay, and refuses words that are no recording |
| `Replays.Recorder.Loaded` | wasm/src/lib.rs:235-244 | the recorded core is the loaded one's words, which read as its cells; heads and lengths are the queues' |
| `Replays.Recorder.AfterStep` | wasm/src/lib.rs:246-265 | appends the words of the instruction and stays in step with the queues |
| `Replays.RecordBattle` | wasm/src/lib.rs:207-222 | recording changes nothing of the battle and records all of it |
| `Replays.RecordRoundOfMatch` | wasm/src/lib.rs:170-222 | round n of a match, recorded after the rounds before it: its outcome and instructions are the match's, the words of the core and of the end read as the cells of the loaded and the final core, and the events replay the one to the other with both queues |
| `Traces.InsertAllLooksUp` | src/trace.rs:81-83 | after inserting a step's cells, exactly those show its warrior |
| `Traces.FrameCycles` | src/trace.rs:84-87 | frame cycles strictly increase, are multiples of the frame length, and the last is half the instructions rounded up |
| `Traces.FramesPaintTheRound` | src/trace.rs:40-42 | replaying the frames shows for every cell the warrior that wrote it last in the round, and nothing else |
| `Traces.Recorder.AfterStep` | src/trace.rs:80-88 | the recorder holds all full frames and the pending writes since |
| `Traces.EndHeld` | src/trace.rs:143-146 | the closing test writes a last frame exactly when the round ends between frames |
| `Traces.LastWriterIs` | src/trace.rs:40-42 | the last writer of a cell is the warrior of the latest move that wrote it, and there is none if none did |
| `Traces.FrameEnds` | src/trace.rs:84-88 | a frame shows how many processes both warriors have after its last move |
| `Traces.SummaryReads` | src/trace.rs:128-142 | what a round's summary says: its number, who opened, where the second warrior was loaded, who won, and its cycles, half the instructions rounded up |
| `Traces.RecordingReads` | src/trace.rs:143-160 | what a recording begins and ends with: both warriors' places and lengths, the winner and the processes left |
| `Traces.RecordedAre` | src/trace.rs:112-116 | the rounds asked for are recorded, each once and in order |
| `Traces.TraceRound` | src/trace.rs:117-124 | a recorded round is the round, and its frames are the round's frames |
| `Traces.TraceMatch` | src/trace.rs:94-164 | the score is that of the match played plainly and counts, by name, the winners of the summaries; every round is summarised, and exactly the rounds asked for are recorded, in order |
| `Ranking.SortInOrder` | src/hill.rs:893-909 | the sort leaves its members in the order of its own test, which RankedReads spells out |
| `Ranking.RankedReads` | src/hill.rs:893-909 | of two members of the ranking the earlier has more points, or as many and did not arrive earlier where the newer go first, or later where not |
| `Ranking.BringsReads` | src/hill.rs:839-883 | the points a match brings each of its two members: wins, ties and losses weighted, seen from its own side |
| `Ranking.TotalReads` | src/hill.rs:839-883 | and a member's record is the sum over all members |
| `Ranking.RankedKeeps` | src/hill.rs:893-909 | ranking is a permutation of the members |
| `Ranking.TotalSorts` | src/hill.rs:839-883 | a record does not depend on the order of the others |
| `Ranking.RankedTwice` | src/hill.rs:887-909 | ranking a ranked table changes nothing |
| `Ranking.RankedOfPairs` | src/hill.rs:654-661 | dropping results that are not between members changes no ranking |
| `Hills.PairsOnly` | src/hill.rs:574-577 | the loops meet only pairs of members |
| `Hills.PairsCover` | src/hill.rs:574-577 | and every pair of members |
| `Hills.Hill.Records` | src/hill.rs:839-883 | each member's record against all others, or nothing while a result is missing |
| `Hills.Hill.Rank` | src/hill.rs:887-909 | the table becomes the ranking exactly when no result is missing: more points first, then the later arrival or the earlier, as the rules say |
| `Hills.Hill.Trim` | src/hill.rs:913-928 | what is kept and what falls off |
| `Hills.Hill.Admit` | src/hill.rs:490-537 | exactly the readable, assembling, unknown texts enter, once, in the order given, their sources written, no member's source changed |
| `Hills.Hill.PlayMissing` | src/hill.rs:571-610 | every missing match is played with its seed, no cached one again, and all of them replay |
| `Hills.Hill.JoinAll` | src/hill.rs:613-634 | challengers join one at a time, the lowest falling off after each |
| `Hills.Hill.Challenge` | src/hill.rs:465-675 | the whole challenge: who entered and in which order, what was played, the members left and what is saved; refused exactly without a number to play from where one is needed, or with one where none is wanted |
| `Hills.MembersAfter` | src/hill.rs:613-653 | the members left have distinct ids and arrivals, each was kept or entered, and they are no more than the size |
| `Hills.ResultsAfter` | src/hill.rs:655-661 | the saved results are exactly the pairs of members, each replaying to its stored score |
| `Hills.ChallengeKeepsSound` | src/hill.rs:465-675 | whatever rules came before, a challenge leaves distinct members and arrivals, honest sources and only results that replay |
| `Hills.OrderAfter` | src/hill.rs:650-653 | the saved order is the rules' when a challenger joined, the size is at most one, or no more members than the size were kept |
| `Hills.ChallengeVerifies` | src/hill.rs:682-821 | what a challenge saves passes the audit under that guard |
| `Hills.ChallengeDetermined` | src/hill.rs:465-675 | texts in their order, hill and drawn number decide entrants, arrivals, members, sources and results: a challenge has one outcome |
| `Hills.SoundThroughout` | src/hill.rs:378-440 | along any run from a new hill, through any edits of the rules, every directory is sound |
| `Hills.EveryChallengeVerifies` | src/hill.rs:682-821 | and every challenge under the guard leaves a hill that verifies |
| `Hills.Hill.CheckOrder` | src/hill.rs:798-808 | the ranking check |
| `Hills.Hill.Verify` | src/hill.rs:682-821 | the audit finds no problem exactly when members are distinct, sources honest and assembling, the size kept, the results exactly the pairs and replaying, and the order the rules' |
| `HillLimits.TrimMisorders` | src/hill.rs:650-653 | for every size of at least two and more members than it, results for which a ranking and a trim leave an order the rules do not give |
| `HillLimits.TrimKeepsOrderIff` | src/hill.rs:650-653 | over all results, a ranking and a trim of n members leave the rules' order exactly when the size is at most one or n is no more than the size |
| `HillLimits.ChallengeMisorders` | src/hill.rs:650-653 | for every size of at least two and more members than it, a hill the audit accepts while it keeps everyone, which a challenge without files leaves failing the audit once the size is lowered |
| `HillLimits.ChallengeVerifiesIff` | src/hill.rs:613-653 | challenges of a hill of this size, with this many members still assembling and this many entrants, always leave what verifies exactly when somebody entered, the size is at most one, or nobody has to fall off |
| `HillRules.TrimKeepsBest` | src/hill.rs:913-928 | a trim keeps the front of the table: nobody that falls off was before somebody kept, and nobody falls off while there is room |
| `HillRules.TieOnOnePlace` | src/hill.rs:897-909 | of two members tied on a hill of one the later arrival stays where the newer go first, and the earlier where not |
| `HillRules.ChallengerTies` | tests/hill.rs:205-217 | so a challenger that ties the only member takes its place exactly where the newer go first |
| `HillRules.VerifiedInOrder` | src/hill.rs:798-808 | the members of a hill that passes its audit have more points first, then the tie rule |
| `HillRules.VerifiedReads` | src/hill.rs:682-821 | a directory passes exactly if ids differ, every member has the source its id, name and author are of and it assembles for both places, the size is kept, the results were played under these rules, are those of the pairs of members and no others and replay, and the table has more points first, then the tie rule |
| `HillRules.JoinedLast` | src/hill.rs:613-634 | each entrant joins behind the members as the last to arrive, and the hill is trimmed then |
| `HillRules.KeptReads` | src/hill.rs:550-569 | the members that stay are exactly those whose sources still assemble for both places, in their order |
| `HillRules.OpenedReads` | src/hill.rs:158-170 | cached results are kept exactly when parameters, rounds and placement are those they were played under |
| `HillRules.EntryReads` | src/hill.rs:490-537 | a text enters exactly if it assembles for both places of a match of two |
| `HillRules.AdmissionReads` | src/hill.rs:490-537 | entrants come in the order of the texts they enter with, with the name, author and file of it; every other text is unreadable, does not assemble, or is that of a member or of an earlier entrant |
| `HillRules.ReplayReads` | src/hill.rs:571-610 | a result replays exactly if both sources are there and assemble for both places, the seed is there if it was drawn, and it is the score of the match of the two, the lower id first |
| `HillRules.NewSeedReads` | src/hill.rs:571-610 | a match not played yet gets the seed of its pair, or that of the number drawn and the pair, among the positions a warrior can have |
| `EvaluatorEngine.Evaluation.Calculate` | src/asm.rs:400-472 | every operation of the language gives its exact result wrapped to 64 bits; a zero divisor is told, and so is a result out of range, exactly when it is none of the four that turn the least integer round |
| `EvaluatorEngine.Evaluation.GetValue` | src/asm.rs:531-571 | a value, with what it consumes and does to registers and status |
| `EvaluatorEngine.Evaluation.Evaluate` | src/asm.rs:573-609 | the precedence recursion over a buffer and an index computes the function of the text, and ends |
| `EvaluatorEngine.EvaluateExpression` | src/asm.rs:614-626 | the whole evaluation, trailing text an error |
| `Expressions.ReadsTree` | src/asm.rs:531-609 | at the front of a text, a fully parenthesised expression with any white space is consumed exactly and gives its 64-bit wrapping value |
| `Expressions.EvaluatesTree` | src/asm.rs:614-626 | alone, it evaluates to its wrapping value with all text consumed and the registers untouched |
| `Expressions.EvaluatesPair` | src/asm.rs:573-626 | the outermost operator needs no parentheses |
| `Expressions.CalcMeans` | src/asm.rs:400-472 | what the operations mean: the exact result of the operator wrapped, the status from the exact result |
| `Expressions.StatusIs` | src/asm.rs:400-454 | the status of every expression and any status before: DIV_ZERO if a divisor is zero, else OVERFLOW if a result leaves the range and is noticed, else what it was |
| `Expressions.ZeroDivisorIff` | src/asm.rs:429-436 | the status is DIV_ZERO exactly when some divisor is zero |
| `Expressions.FlagsIff` | src/asm.rs:400-454 | for all 64-bit operands, the test before an operation is true exactly when the exact result leaves the range and does not slip; what slips is out of range |
| `Expressions.OverflowIff` | src/asm.rs:400-454 | without zero divisors, the status is OVERFLOW or OK rightly, as some result leaves the range or none, exactly when no result slips or another overflow is noticed |
| `Expressions.FineIsExact` | src/asm.rs:400-472 | status OK and nothing slips: the exact integer |
| `Expressions.FirstSlip` | src/asm.rs:400-454 | where nothing overflowed before, a slip leaves status OK and a value that is not the exact one |
| `Expressions.LeastIntegerSlips` | src/asm.rs:415-427 | a concrete expression meeting the least integer: reported OK, value wrong |
| `Evaluator.WrapReads` | src/asm.rs:400-472 | wrapping is the one 64-bit number that differs by a multiple of 2^64 |
| `Evaluator.DivisionReads` | src/asm.rs:429-436 | quotient and remainder are those that truncate: the remainder has the sign of the dividend and is smaller than the divisor |
| `Chains.ValleyIsUsual` | src/asm.rs:573-609 | without parentheses, operators of any number that fall and then rise in strength group in the usual way: stronger ones first, equally strong ones from the left |
| `Chains.TwoOperators` | src/asm.rs:573-609 | so does every expression of two operators |
| `Chains.ThreeOperators` | src/asm.rs:573-609 | and of three, with exactly two families of exceptions, the second operator stronger than the first: a third as strong as the first takes the second's value, and == weaker than the first is an error |
| `Chains.SumRunsOn` | src/asm.rs:573-609 | 1-2*3-4 is -1 |
| `Chains.OperatorsRead` | src/asm.rs:400-472 | all thirteen operators between two numbers as they are written |
| `Chains.PrefixesRead` | src/asm.rs:541-548 | minus and not before a number |
| `Chains.PlusAside` | src/asm.rs:549-551 | a plus before any text changes nothing |
| `Chains.TooLarge` | src/asm.rs:556-570 | a number of more than 63 bits is an error |
| `Chains.RegisterReads` | src/asm.rs:520-529 | a letter is the value of its register, large or small |
| `Chains.AssignmentReads` | src/asm.rs:520-529 | an assignment has the value and status of its expression and leaves the value in the register |
| `Text.TokenReads` | src/asm.rs:284-346 | the token behind the white space is the front of the text; its kind is that of its first character; numbers and words are whole runs, the rest one symbol or two alike |
| `Text.TokenKinds` | src/asm.rs:284-346 | the kind of a token from its first characters, kind by kind |
| `Text.SkipReads` | src/asm.rs:275-300 | the white space skipped is all of it, and nothing else |
| `Text.UpperReads` | src/asm.rs:1324 | words are compared with small letters made large and nothing else changed |
| `Text.DecimalShows` | src/asm.rs:560-570 | reading the decimal digits of a number gives it back |
| `Text.TwoDigits` | src/asm.rs:1414-1447 | a counter is shown with at least two digits, a zero before the first only below ten |
| `AsmText.OpcodesRead` | src/asm.rs:632-669 | the opcode of every word that is one |
| `AsmText.ModifiersRead` | src/asm.rs:1642-1654 | and the modifier |
| `AsmText.ModesRead` | src/redcode.rs:174-186 | and the mode of every sign |
| `Redcode.Signed` | src/redcode.rs:282-289 | a listed number is the field around the core, in the half-open range of minus half to half the core |
| `Listings.ImpIsListed` | src/redcode.rs:290-314 | the listing of an imp, character by character |
| `Listings.LineIsStatement` | src/asm.rs:1380-1412 | pass 1 takes a line of a listing for an instruction and copies it without the operands' spaces |
| `Listings.LineScans` | src/asm.rs:1593-1697 | pass 2 finds opcode, modifier, modes and both numbers on that line |
| `Listings.NumberEvaluates` | src/asm.rs:614-626 | the collected numbers evaluate to themselves |
| `Listings.SignedWraps` | src/asm.rs:1796-1803 | the signed rendering modulo the core is the field again |
| `Symbols.LookupIsNewest` | src/asm.rs:907-910 | the symbol found by name is the newest with that name |
| `Symbols.PseudoWordsRead` | src/asm.rs:1324-1360 | which words are FOR, ROF, EQU and CURLINE |
| `Symbols.PlainOperands` | src/asm.rs:1480-1497 | operands without names are written token by token, whatever the symbols |
| `Symbols.PlainStarts` | src/asm.rs:1369-1412 | an instruction without symbols is written as it stands, whatever the symbols |
| `Symbols.PlainScan` | src/asm.rs:1593-1697 | the automaton on text without names collects the same parts whatever the symbols |
| `Labels.OperandsAreRewritten` | src/asm.rs:1344-1497 | in pass 1 operands without EQUs become their tokens one after another, names replaced by a label's distance or number or a counter's two digits, counters appended, names not known yet left as they are |
| `Labels.InstructionStarts` | src/asm.rs:1369-1412 | a line that is an instruction is written as opcode, what is attached to it and those operands, behind whatever labels |
| `Labels.EitherPass` | src/asm.rs:1501-1697 | for operands of labels, numbers, operators, modes and commas in any order, in every state of the automaton, pass 2 collects from what pass 1 leaves, whichever labels it knew, the same parts as from the operands themselves with all labels known, or reports an error on both |
| `Labels.LabelEitherPass` | src/asm.rs:1414-1476 | an operand that is a label's name, in each state an operand or field can start in, with a mode before it or without, comes out of the two passes as the label's distance from the instruction, and behind ORG, END or PIN as its number, whether pass 1 resolves it or pass 2 does |
| `Labels.LabelLeadsThere` | src/asm.rs:1796-1803 | that distance, evaluated and reduced, leads from the instruction to the label around the core, wherever the warrior is loaded |
| `Expansion.RoundWrites` | src/asm.rs:1174-1202 | a round of a FOR over instructions, symbols among their operands, writes its lines once as they stand in that round, counts them, and stops behind its ROF |
| `Expansion.RoundsWrite` | src/asm.rs:1174-1202 | the rounds that are left write the lines once each with the counter at 1, 2, 3 and so on, numbers of instructions running through, all lines counted as expanded |
| `Expansion.ForWrites` | src/asm.rs:1133-1204 | a whole FOR: its last label names the counter and the others the next instruction, its lines are written as often as its expression says modulo 2^16, and the counter has no name behind it |
| `Expansion.ForNames` | src/asm.rs:1133-1172 | in a FOR the last label before it is the counter, beginning at 1, and the others are the next instruction |
| `Expansion.CounterStands` | src/asm.rs:1450-1468 | in round n the counter's name is n with at least two digits |
| `Expansion.CounterAppends` | src/asm.rs:1414-1447 | and a name with the counter appended by & is the name with those digits behind it |
| `Expansion.PlainRound` | src/asm.rs:1174-1202 | without symbols every round writes the same lines |
| `Expansion.PassedOver` | src/asm.rs:1325-1339 | behind a FOR that goes round no times the lines up to the ROF that closes it, FORs and ROFs between counted, write, count and define nothing, whatever they are |
| `Expansion.PassedInRound` | src/asm.rs:1179-1196 | inside a round they count against the allowance and the round goes on behind them |
| `Expansion.ForPasses` | src/asm.rs:1154-1158 | a FOR of zero or less goes on behind its own ROF, and of its labels only the last is lost |
| `Expansion.EquDefines` | src/asm.rs:1206-1239 | each label before an EQU is from then on its text |
| `Expansion.EquStands` | src/asm.rs:1241-1268 | and where the name of an EQU of one line stands among operands its text is written |
| `Expansion.EquLinesRead` | src/asm.rs:1206-1239 | an EQU's further lines are the EQU lines right behind it, the word taken off, and no others |
| `Expansion.LineCounts` | src/asm.rs:1369-1412 | an instruction is written and numbered, its labels name that number; ORG and PIN are written only; END ends the text, whatever is behind it |
| `Expansion.CurlineStands` | src/asm.rs:1340-1352 | CURLINE among operands is the number of the instruction |
| `Expansion.PassedReads` | src/asm.rs:1325-1339 | in a line passed over ROF closes one, FOR opens one, and a name leads on to the next word |
| `Sources.RowsDone` | src/asm.rs:1113-1131 | pass 1 over rows, each a label, an opcode or ORG, END or PIN, a modifier and any expressions of labels, registers and numbers as operands, leaves every row with the labels known so far replaced by their numbers, and every label naming the instruction of its row |
| `Sources.RowScans` | src/asm.rs:1593-1697 | from what pass 1 leaves of a row pass 2 finds the parts it would find in the row itself with all labels known, or an error in both |
| `Sources.RowIsCoded` | src/asm.rs:1745-1812 | and makes of it the same instruction, start, PIN and registers; it is an instruction exactly if its word is an opcode |
| `Sources.TwoPassesAreOne` | src/asm.rs:1821-1836 | two passes are one: a source of rows has the program that assembling every row as it stands gives with all labels known, wherever they are defined, and none where that gives none |
| `Sources.RowsAreTame` | src/asm.rs:1014-1047 | rows are read as they are written |
| `Sources.ColonStarts` | src/asm.rs:1459-1469 | a colon behind a label is passed over |
| `Programs.EntryIsCoded` | src/asm.rs:1745-1812 | a line with an optional modifier, optional modes and labels or 32-bit numbers as operands is assembled to the instruction with its labels resolved; ProgramReads spells the modifier out |
| `Programs.EndIsCoded` | src/asm.rs:1761-1785 | END and a label make the label's instruction the start and are no instruction |
| `Encodings.LineReads` | src/asm.rs:1786-1812 | every line that assembles to an instruction: its opcode, its modifier or, without one, that of its class of opcodes and of which operand is immediate (AB, B, I or F, spelled out), its modes, and both expressions around the core |
| `Encodings.PseudoReads` | src/asm.rs:1761-1785 | and every line that does not is ORG, END or PIN: which of start and PIN it sets, and to what; END sets the start only if none was set and it is not zero |
| `Programs.ProgramAssembles` | src/asm.rs:1821-1846 | a source of such lines up to the maximum length, with or without END and a label, is exactly the instructions its labels resolve to, starting at that label or at 0, no PIN; forward and backward references alike |
| `Programs.ProgramReads` | src/asm.rs:1821-1846 | that program line by line: opcode, modes and modifier of the line, or the standard modifier spelled out; a number around the core, or the distance to the line with that label; the start at END's label |
| `Programs.EntryLeads` | src/asm.rs:1796-1803 | and each field assembled for a label, added to the instruction's own address, is the label's address around the core |
| `Assembler.Asm.Halt` | src/asm.rs:939-945 | a limit of the assembler's own stops the text; it adds one message exactly when nothing had stopped it before |
| `Assembler.Asm.ExpandOne` | src/asm.rs:948-954 | a line of expansion is counted; it goes on exactly below the allowance, else one message and a stop |
| `Assembler.Asm.Trav2` | src/asm.rs:1284-1292 | ends on every text; the depth, all symbols and the FOR counters are back, the current line is in its list and not before where it was; operands are rewritten to what their names stand for and nothing else changes; a line of labels and an instruction, an EQU or a FOR is counted, named, defined or gone round exactly; behind a FOR that goes round no times a line only opens and closes FORs |
| `Assembler.Asm.PassWord` | src/asm.rs:1325-1339 | in a line passed over FOR opens one more, ROF closes one, and a word that may be a label leads on to the next |
| `Assembler.Asm.BlkFor` | src/asm.rs:1133-1204 | a FOR ends, its counter gone again; its last label names the counter, the other labels its line; what is written is its rounds' lines, as often as its expression says, or for zero and less nothing, with the lines behind it to be passed over |
| `Assembler.Asm.Unroll` | src/asm.rs:1174-1202 | at most as many rounds as the count, fewer only when the text is given up; the counter ends at the number of rounds; what is written is those rounds' lines |
| `Assembler.Asm.Round` | src/asm.rs:1179-1196 | a round rewrites the lines up to its ROF, one after another, each counted against the allowance |
| `Assembler.Asm.EquTbl` | src/asm.rs:1206-1239 | one new symbol, of the labels before the EQU, for exactly its text and the EQU lines right behind it, over which the current line moves; without labels one message and nothing else |
| `Assembler.Asm.EquSub` | src/asm.rs:1241-1268 | a substitution ends with its visit flag and the current line restored; in operands, an EQU of one line puts its rewritten text in place of the name, with the symbol marked meanwhile |
| `Assembler.Asm.Name` | src/asm.rs:1414-1476 | a name, counters appended: an EQU's text, a label's distance or number, a counter's two digits, a new label, or the name itself |
| `Assembler.Asm.Expand` | src/asm.rs:1113-1131 | pass 1 halts on every source; a text of labelled instructions, EQUs and FORs, gone round or passed over, ends with exactly the lines, symbols, numbers and registers that going through it line by line gives |
| `Assembler.Asm.Automaton` | src/asm.rs:1586-1591 | the line automaton ends with depth and symbols restored; where it meets no error it fills in exactly what the line says with names replaced by what they stand for |
| `Assembler.Asm.Substitute` | src/asm.rs:1509-1530 | a symbol's text in pass 2 is run with the symbol marked, so that one that calls on itself gives no parts, and unmarked after |
| `Assembler.Asm.Dfashell` | src/asm.rs:1701-1728 | a line into its parts, a single operand of DAT, SPL, JMP and NOP completed |
| `Assembler.Asm.EncodeLine` | src/asm.rs:1750-1812 | any line whose parts are found, without errors before it, is the instruction that LineReads spells out, its expressions evaluated in order, or sets the start or the PIN as PseudoReads says; registers and the number of the next instruction follow |
| `Assembler.Asm.Encode` | src/asm.rs:1730-1819 | the lines of pass 1, if they number 1 to the maximum length and each has its parts, come to the code, start and PIN that assembling them one by one gives, without error |
| `Assembler.ReadLine` | src/asm.rs:1014-1047 | a line of at most 255 characters through its end or a carriage return, while a backslash ends it continued by the next in the backslash's place, and what is left of the text |
| `Assembler.TameReads` | src/asm.rs:1014-1047 | a line with nothing special in it is read as it is |
| `Assembler.Asm.Read` | src/asm.rs:1008-1069 | reading ends on every source, whatever is in it, and its lines are exactly those of the line-by-line definition, which Readings spells out |
| `Readings.LinesAreTaken` | src/asm.rs:1014-1069 | lines with an end of their own are taken one after another, each with its number |
| `Readings.ContinuedReads` | src/asm.rs:1014-1047 | a backslash at the end of a line puts the next line in its place |
| `Readings.LongReads` | src/asm.rs:1014-1047 | what is behind 255 characters is read as the next line |
| `Readings.ReturnReads` | src/asm.rs:1014-1047 | a line is cut at a carriage return |
| `Readings.MarkReads` | src/asm.rs:1070-1082 | a mark is the word redcode in any case right behind the semicolon, whatever is behind it |
| `Readings.BetweenMarks` | src/asm.rs:1070-1112 | with two marks only what is between them is the program: what is before and behind does not matter, whatever it is |
| `Readings.SourceIsKept` | src/asm.rs:1048-1069 | without marks every line counts: its text before the comment, assertions whole, blank lines and comments not at all |
| `Readings.CommentAside` | src/asm.rs:1048-1069 | what is behind a semicolon is not part of the line |
| `Assembler.Asm.EncodeFields` | src/asm.rs:1778-1812 | the fields of an instruction, evaluated left to right with the registers passed on, reduced to the core |
| `Assembler.Asm.AddPredefs` | src/asm.rs:973-998 | the nine constants of the configuration are EQUs of one line each |
| `Assembler.PredefsRead` | src/asm.rs:973-998 | the names of the nine and the number each stands for |
| `Assembler.StartRegistersRead` | src/asm.rs:1821-1826 | registers start at zero, but W and S of the first warrior at the number of warriors |
| `Assembler.Asm.Judge` | src/asm.rs:1299-1320 | an assertion's value is judged as AssertionReads spells out |
| `Assembler.AssertionReads` | src/asm.rs:1299-1320 | an assertion that is true changes nothing but registers, one that is false is an error at its line, one that cannot be evaluated a warning |
| `Assertions.AssertionStarts` | src/asm.rs:1299-1304 | a semicolon, assert in any case, and an expression, rewritten like operands |
| `Assertions.AssertionDecides` | src/asm.rs:1304-1320 | behind any lines pass 1 goes through, one that is false refuses the source, one that is true lets the lines behind it decide |
| `Assertions.CoresizeAsserted` | src/asm.rs:1299-1320 | assert CORESIZE==n refuses the source on cores of any size but n, and on those changes nothing |
| `Assembler.Asm.Prepare` | src/asm.rs:973-1112 | constants and lines of any source as they are before pass 1 |
| `Assembler.Asm.Process` | src/asm.rs:1821-1836 | constants, reading, pass 1 and pass 2 in a row: for any source, code, start and PIN are those of its lines one by one where that definition gives some, and errors are counted where it meets one |
| `Assembler.ListingIsProgram` | src/asm.rs:1821-1846 | line by line the listing of a warrior is the warrior |
| `Assembler.Assemble` | src/asm.rs:1821-1846 | every source gets an answer; any source that reading, pass 1 and pass 2 make a program of line by line assembles to it, with comments, marks, continued lines and assertions in it; one with a false assertion, too many instructions or an expression without a value behind such lines is refused; what is assembled has its fields below the core size; the listing of any warrior of 1 to the maximum length, fields and start below the core size, assembles to the same code and start |

## Left out

- Command line, JSON reports, tables, benchmarks, scripts, file reading and atomic writes, locks, clocks and `/dev/urandom`: a drawn number is a parameter, and a directory is a value.
- SHA-256, `warrior_id`, `seed` and `drawn_seed`: deterministic functions of the world. Ids are the numbers their hex digits spell, keys are pairs of ids, and rules that decide matches differently are taken to have different fingerprints.
- In the hill, assembling and playing a match are functions too; that playing is one is what the pool and engine modules prove. A source's name and author do not depend on the rules, as they are read before pass 1.
- The hill's reports and history, member ages, and the place a challenger is told: presentation, and `TODO.md` records that the place is not the final standing. The audit says the kind of each problem, not its text.
- Numbers of warriors other than two, `Engine::battle`, `Mars::battle`, and single positions given by hand: matches always load the first warrior at 0.
- The plain engine's `u32` arithmetic is on natural numbers: the proofs keep every value below the core size, at most 65535, where no operation of it wraps. Step counters are unbounded.
- The fast engine's pointer casts, the padding byte of a cell, and the generated dispatch itself: the cell is compared field by field, and dispatch is the proof that every live byte has its arm.
- On machines with numbers out of range, `TwoCells` follows the engines through operands, NOP and LDP only, which is all the match on two cells needs.
- `Observer` and `Watch`, traits in the source: the recorder and the tracer are given the plain engine's steps directly.
- In the pool a worker's match is one step; that engines do not share anything is the type of the engine, and thread panics are not modelled.
- The session, C entry points and JSON of the WebAssembly module; recording keeps the words, the position, the outcome and the instruction count.
- `cw versus` and tournament scoring: sums and a stable sort.
- Expressions of four operators and more that rise and fall again have no meaning stated beyond the evaluator's own recursion, which the modelled evaluator is proved to be.
- Characters above 0x7f are one unit each where the source counts bytes, so the 256-byte limits are limits in characters.
- The assembler's symbol index is a search for the newest symbol of a name, which it speeds up; `name` and `author` texts are not kept by the assembler model, nor how an error is worded; the thread it runs on and its stack are not part of this model.
- Agreement with pMARS: its source is not part of this model.
- Assembler.Asm.Trav2: says what a line becomes unless its rewriting reports an error, or a name in it stands for an EQU of several lines or one that holds the opcode; there it states what is kept and that it ends.
- Assembler.Asm.BlkFor: likewise says what is written only where each of the lines is one of those.
- Assembler.Asm.EquSub: likewise gives the substituted text only for an EQU of one line among operands.
- Assembler.Asm.Name: likewise; what it reports where a name cannot stand is not stated.
- Assembler.Asm.Automaton: likewise gives the parts only where it reports no error; which error it reports elsewhere is not stated.
- Assembler.Asm.EncodeLine: gives the instruction, start, PIN, registers and numbers; the text of the warnings beside them is not stated.
- Sources.TwoPassesAreOne: its sources have no EQU, FOR, assertions or predefined constants in them, END is last, no number is followed by another or by a name, and a line has room for its labels' numbers within its 255 characters.
- Programs.ProgramAssembles: one label a line at most, and no EQU, FOR, ORG or expressions, whose meaning the lemmas above it give.
- Cells.DispatchCovers: the generated arms are not in the source tree; the range of opcode and modifier numbers build.rs generates them for stands in for them.
