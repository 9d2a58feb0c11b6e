/** Recording a round for a replay, and the replay (wasm/src/lib.rs): every
    instruction becomes a few words, and a page that only reads the words
    rebuilds the core and both process queues. */
module Replays {
  import Bits
  import Rng
  import S = Scores
  import opened Redcode
  import opened Configs
  import opened Semantics
  import opened MachineFacts
  import opened Match
  import opened Observed
  import opened MarsEngine

  // ---- cells as words ----

  function OpWord(o: Opcode): (n: nat)
    ensures n < 19
  {
    match o
    case Dat => 0 case Mov => 1 case Add => 2 case Sub => 3 case Mul => 4 case Div => 5 case Mod => 6
    case Jmp => 7 case Jmz => 8 case Jmn => 9 case Djn => 10 case Spl => 11 case Slt => 12 case Cmp => 13
    case Seq => 14 case Sne => 15 case Nop => 16 case Ldp => 17 case Stp => 18
  }

  function ModifierWord(m: Modifier): (n: nat)
    ensures n < 7
  {
    match m
    case MA => 0 case MB => 1 case MAB => 2 case MBA => 3 case MF => 4 case MX => 5 case MI => 6
  }

  function ModeWord(m: Mode): (n: nat)
    ensures n < 8
  {
    match m
    case Immediate => 0 case Direct => 1 case AIndirect => 2 case BIndirect => 3
    case APredec => 4 case BPredec => 5 case APostinc => 6 case BPostinc => 7
  }

  /** The three words of a cell. */
  function EncodeCell(i: Instruction): (r: seq<nat>)
    ensures |r| == 3
  {
    [Bits.Or(Bits.Or(Bits.Or(OpWord(i.op), Bits.Shl(ModifierWord(i.modifier), 5)),
                     Bits.Shl(ModeWord(i.aMode), 8)), Bits.Shl(ModeWord(i.bMode), 11)),
     i.a, i.b]
  }

  lemma Shifts(x: nat)
    ensures Bits.Pow2(1) == 2 && Bits.Pow2(3) == 8 && Bits.Pow2(5) == 32 && Bits.Pow2(8) == 256 && Bits.Pow2(11) == 2048
    ensures Bits.Shl(x, 1) == 2 * x && Bits.Shl(x, 3) == 8 * x && Bits.Shl(x, 5) == 32 * x
    ensures Bits.Shl(x, 8) == 256 * x && Bits.Shl(x, 11) == 2048 * x
  {
  }

  /** The shifted parts do not overlap, and fit a word. */
  lemma CellWordIsSum(i: Instruction)
    ensures EncodeCell(i)[0] == OpWord(i.op) + 32 * ModifierWord(i.modifier) + 256 * ModeWord(i.aMode)
              + 2048 * ModeWord(i.bMode)
    ensures EncodeCell(i)[0] < 0x1_0000_0000
  {
    hide Bits.Or, Bits.Shl, Bits.Pow2, OpWord, ModifierWord, ModeWord;
    var o, m, a, b := OpWord(i.op), ModifierWord(i.modifier), ModeWord(i.aMode), ModeWord(i.bMode);
    Shifts(m);
    Shifts(a);
    Shifts(b);
    Bits.OrDisjoint(o, m, 5);
    Bits.OrDisjoint(o + 32 * m, a, 8);
    Bits.OrDisjoint(o + 32 * m + 256 * a, b, 11);
  }

  /** The words of a cell determine it: no two instructions look alike. */
  lemma WordsDetermineCell(i: Instruction, j: Instruction)
    requires EncodeCell(i) == EncodeCell(j)
    ensures i == j
  {
    CellWordIsSum(i);
    CellWordIsSum(j);
    hide Bits.Or, Bits.Shl;
    assert EncodeCell(i)[1] == EncodeCell(j)[1] && EncodeCell(i)[2] == EncodeCell(j)[2];
    hide EncodeCell, OpWord, ModifierWord, ModeWord;
    assert OpWord(i.op) == OpWord(j.op) && ModifierWord(i.modifier) == ModifierWord(j.modifier)
        && ModeWord(i.aMode) == ModeWord(j.aMode) && ModeWord(i.bMode) == ModeWord(j.bMode);
    CodesDiffer(i, j);
  }

  lemma CodesDiffer(i: Instruction, j: Instruction)
    ensures OpWord(i.op) == OpWord(j.op) ==> i.op == j.op
    ensures ModifierWord(i.modifier) == ModifierWord(j.modifier) ==> i.modifier == j.modifier
    ensures ModeWord(i.aMode) == ModeWord(j.aMode) ==> i.aMode == j.aMode
    ensures ModeWord(i.bMode) == ModeWord(j.bMode) ==> i.bMode == j.bMode
  {
  }

  /** The order the opcodes, modifiers and modes are numbered in. */
  const OPCODES: seq<Opcode> := [
    Dat, Mov, Add, Sub, Mul, Div, Mod, Jmp, Jmz, Jmn, Djn, Spl, Slt, Cmp, Seq, Sne, Nop, Ldp, Stp]
  const MODIFIERS: seq<Modifier> := [MA, MB, MAB, MBA, MF, MX, MI]
  const MODES: seq<Mode> := [Immediate, Direct, AIndirect, BIndirect, APredec, BPredec, APostinc, BPostinc]

  /** What a reader of three words finds: opcode, modifier and both modes in the
      first, the A number in the second, the B number in the third. */
  predicate CellReads(words: seq<nat>, i: Instruction) {
    && |words| == 3 && words[1] == i.a && words[2] == i.b
    && words[0] % 32 < 19 && OPCODES[words[0] % 32] == i.op
    && words[0] / 32 % 8 < 7 && MODIFIERS[words[0] / 32 % 8] == i.modifier
    && MODES[words[0] / 256 % 8] == i.aMode
    && words[0] / 2048 < 8 && MODES[words[0] / 2048] == i.bMode
  }

  lemma CellWordsRead(i: Instruction)
    ensures CellReads(EncodeCell(i), i)
  {
    hide EncodeCell, OpWord, ModifierWord, ModeWord;
    CellWordIsSum(i);
    NumbersBehind(i);
    CodesListed(i);
    PartsRead(EncodeCell(i), i, OpWord(i.op), ModifierWord(i.modifier), ModeWord(i.aMode), ModeWord(i.bMode));
  }

  lemma PartsRead(words: seq<nat>, i: Instruction, o: nat, m: nat, a: nat, b: nat)
    requires |words| == 3 && words[0] == o + 32 * m + 256 * a + 2048 * b && words[1] == i.a && words[2] == i.b
    requires o < 19 && m < 7 && a < 8 && b < 8
    requires OPCODES[o] == i.op && MODIFIERS[m] == i.modifier && MODES[a] == i.aMode && MODES[b] == i.bMode
    ensures CellReads(words, i)
  {
    SumParts(o, m, a, b);
  }

  lemma NumbersBehind(i: Instruction)
    ensures EncodeCell(i)[1] == i.a && EncodeCell(i)[2] == i.b
  {
  }

  lemma CodesListed(i: Instruction)
    ensures OPCODES[OpWord(i.op)] == i.op && MODIFIERS[ModifierWord(i.modifier)] == i.modifier
    ensures MODES[ModeWord(i.aMode)] == i.aMode && MODES[ModeWord(i.bMode)] == i.bMode
  {
  }

  lemma SumParts(o: nat, m: nat, a: nat, b: nat)
    requires o < 32 && m < 8 && a < 8
    ensures var w := o + 32 * m + 256 * a + 2048 * b;
            w % 32 == o && w / 32 % 8 == m && w / 256 % 8 == a && w / 2048 == b
  {
    var w := o + 32 * m + 256 * a + 2048 * b;
    Bits.ModUnique(w, 32, m + 8 * a + 64 * b, o);
    Bits.ModUnique(w / 32, 8, a + 8 * b, m);
    Bits.ModUnique(w, 256, a + 8 * b, o + 32 * m);
    Bits.ModUnique(w / 256, 8, b, a);
    Bits.ModUnique(w, 2048, b, o + 32 * m + 256 * a);
  }

  /** The same of a core, three words a cell. */
  predicate CoreReads(words: seq<nat>, core: seq<Instruction>) {
    |words| == 3 * |core| && forall k :: 0 <= k < |core| ==> CellReads(words[3 * k..3 * k + 3], core[k])
  }

  lemma CoreWordsRead(core: seq<Instruction>)
    ensures CoreReads(EncodeCore(core), core)
  {
    hide EncodeCell, EncodeCore, CellReads;
    forall k | 0 <= k < |core|
      ensures CellReads(EncodeCore(core)[3 * k..3 * k + 3], core[k])
    {
      CoreWordAt(core, k);
      CellWordsRead(core[k]);
    }
  }

  /** A core as the words of its cells, one after another. */
  function EncodeCore(core: seq<Instruction>): (r: seq<nat>)
    ensures |r| == 3 * |core|
  {
    if core == [] then [] else EncodeCore(core[..|core| - 1]) + EncodeCell(core[|core| - 1])
  }

  lemma {:induction false} CoreWordAt(core: seq<Instruction>, i: nat)
    requires i < |core|
    ensures EncodeCore(core)[3 * i..3 * i + 3] == EncodeCell(core[i])
  {
    hide EncodeCell;
    if i < |core| - 1 {
      CoreWordAt(core[..|core| - 1], i);
    }
  }

  /** Replacing a cell replaces its three words. */
  lemma {:induction false} CoreWordsUpdate(core: seq<Instruction>, c: nat, v: Instruction)
    requires c < |core|
    ensures EncodeCore(core[c := v]) == EncodeCore(core)[..3 * c] + EncodeCell(v) + EncodeCore(core)[3 * c + 3..]
  {
    hide EncodeCell;
    var last := |core| - 1;
    if c == last {
      assert core[c := v][..last] == core[..last];
      Splice(EncodeCore(core[..last]), EncodeCell(core[last]), 3 * c, EncodeCell(v));
    } else {
      assert core[c := v][..last] == core[..last][c := v];
      CoreWordsUpdate(core[..last], c, v);
      Splice(EncodeCore(core[..last]), EncodeCell(core[last]), 3 * c, EncodeCell(v));
    }
  }

  lemma Splice(x: seq<nat>, y: seq<nat>, p: nat, v: seq<nat>)
    requires |y| == 3 && |v| == 3
    ensures p + 3 <= |x| ==> (x + y)[..p] + v + (x + y)[p + 3..] == x[..p] + v + x[p + 3..] + y
    ensures p == |x| ==> (x + y)[..p] + v + (x + y)[p + 3..] == x + v
  {
  }

  lemma CoreWordsDetermineCore(x: seq<Instruction>, y: seq<Instruction>)
    requires EncodeCore(x) == EncodeCore(y)
    ensures x == y
  {
    hide EncodeCore, EncodeCell;
    assert |x| == |y|;
    forall i: nat | i < |x|
      ensures x[i] == y[i]
    {
      CoreWordAt(x, i);
      CoreWordAt(y, i);
      WordsDetermineCell(x[i], y[i]);
    }
  }

  // ---- the header of an event ----

  function Header(w: nat, pushed: nat, written: nat): nat {
    Bits.Or(Bits.Or(w, Bits.Shl(pushed, 1)), Bits.Shl(written, 3))
  }

  lemma HeaderIsSum(w: nat, pushed: nat, written: nat)
    requires w < 2 && pushed < 4
    ensures Header(w, pushed, written) == w + 2 * pushed + 8 * written
  {
    hide Bits.Or, Bits.Shl, Bits.Pow2;
    Shifts(pushed);
    Shifts(written);
    Bits.OrDisjoint(w, pushed, 1);
    Bits.OrDisjoint(w + 2 * pushed, written, 3);
  }

  /** The replay's reading of a header gives back what was recorded. */
  lemma HeaderReads(w: nat, pushed: nat, written: nat)
    requires w < 2 && pushed < 4
    ensures var h := Header(w, pushed, written);
            && h == w + 2 * pushed + 8 * written
            && Bits.And(h, 1) == w && Bits.And(Bits.Shr(h, 1), 3) == pushed && Bits.Shr(h, 3) == written
  {
    HeaderIsSum(w, pushed, written);
    hide Header, Bits.And, Bits.Shr;
    var h := Header(w, pushed, written);
    Fields(h, w, pushed, written);
    LowBits(h, 1);
    HighBits(h, 1);
    LowBits(h / 2, 2);
    HighBits(h, 3);
  }

  lemma Fields(h: nat, w: nat, pushed: nat, written: nat)
    requires w < 2 && pushed < 4 && h == w + 2 * pushed + 8 * written
    ensures h % 2 == w && (h / 2) % 4 == pushed && h / 8 == written
  {
    assert h / 2 == pushed + 4 * written;
  }

  lemma LowBits(x: nat, k: nat)
    requires 1 <= k <= 2
    ensures k == 1 ==> Bits.And(x, 1) == x % 2
    ensures k == 2 ==> Bits.And(x, 3) == x % 4
  {
    assert Bits.Pow2(1) == 2 && Bits.Pow2(2) == 4;
    Bits.AndMask(x, k);
  }

  lemma HighBits(x: nat, k: nat)
    ensures k == 1 ==> Bits.Shr(x, 1) == x / 2
    ensures k == 3 ==> Bits.Shr(x, 3) == x / 8
  {
    assert Bits.Pow2(1) == 2 && Bits.Pow2(3) == 8;
    Bits.ShrIsDiv(x, k);
  }

  // ---- the cells of an event ----

  function Insert(x: nat, s: seq<nat>): seq<nat> {
    if s == [] || x <= s[0] then [x] + s else [s[0]] + Insert(x, s[1..])
  }

  /** `sort_unstable`. */
  function Sort(s: seq<nat>): seq<nat> {
    if s == [] then [] else Insert(s[0], Sort(s[1..]))
  }

  /** `dedup`: of a run of equal elements the first is kept. */
  function Dedup(s: seq<nat>): seq<nat>
    decreases |s|
  {
    if |s| < 2 then s
    else if s[0] == s[1] then Dedup([s[0]] + s[2..])
    else [s[0]] + Dedup(s[1..])
  }

  function Distinct(s: seq<nat>): seq<nat> {
    Dedup(Sort(s))
  }

  predicate Ascending(s: seq<nat>) {
    forall i, j :: 0 <= i < j < |s| ==> s[i] <= s[j]
  }

  predicate StrictlyAscending(s: seq<nat>) {
    forall i, j :: 0 <= i < j < |s| ==> s[i] < s[j]
  }

  lemma {:induction false} InsertSorts(x: nat, s: seq<nat>)
    requires Ascending(s)
    ensures Ascending(Insert(x, s)) && |Insert(x, s)| == |s| + 1
    ensures forall y :: y in Insert(x, s) <==> y == x || y in s
  {
    if s != [] && x > s[0] {
      InsertSorts(x, s[1..]);
      assert s == [s[0]] + s[1..];
      var r := Insert(x, s[1..]);
      forall i, j | 0 <= i < j < |r| + 1
        ensures ([s[0]] + r)[i] <= ([s[0]] + r)[j]
      {
        if i == 0 {
          assert r[j - 1] in r;
        }
      }
    }
  }

  lemma {:induction false} SortSorts(s: seq<nat>)
    ensures Ascending(Sort(s)) && |Sort(s)| == |s|
    ensures forall y :: y in Sort(s) <==> y in s
  {
    if s != [] {
      SortSorts(s[1..]);
      InsertSorts(s[0], Sort(s[1..]));
      assert s == [s[0]] + s[1..];
    }
  }

  lemma {:induction false} DedupKeeps(s: seq<nat>)
    requires Ascending(s)
    ensures StrictlyAscending(Dedup(s)) && |Dedup(s)| <= |s|
    ensures forall y :: y in Dedup(s) <==> y in s
    ensures s != [] ==> Dedup(s) != [] && Dedup(s)[0] == s[0]
    decreases |s|
  {
    if |s| >= 2 {
      if s[0] == s[1] {
        var t := [s[0]] + s[2..];
        DedupKeeps(t);
        assert s == [s[0]] + [s[1]] + s[2..];
        assert forall y :: y in t <==> y in s;
      } else {
        DedupKeeps(s[1..]);
        assert s == [s[0]] + s[1..];
        var d := Dedup(s[1..]);
        forall i, j | 0 <= i < j < |d| + 1
          ensures ([s[0]] + d)[i] < ([s[0]] + d)[j]
        {
          if i == 0 {
            assert d[0] <= d[j - 1];
          }
        }
      }
    }
  }

  /** The cells of an event: those written, once each, by address. */
  lemma DistinctCells(s: seq<nat>)
    ensures StrictlyAscending(Distinct(s)) && |Distinct(s)| <= |s|
    ensures forall y :: y in Distinct(s) <==> y in s
  {
    SortSorts(s);
    DedupKeeps(Sort(s));
  }

  lemma DistinctBelow(n: nat, s: seq<nat>)
    requires AllBelow(n, s)
    ensures AllBelow(n, Distinct(s))
  {
    hide Distinct;
    DistinctCells(s);
    forall i | 0 <= i < |Distinct(s)|
      ensures Distinct(s)[i] < n
    {
      assert Distinct(s)[i] in s;
    }
  }

  // ---- events ----

  function CellWords(cells: seq<nat>, core: seq<Instruction>): (r: seq<nat>)
    requires AllBelow(|core|, cells)
    ensures |r| == 4 * |cells|
  {
    if cells == [] then [] else [cells[0]] + EncodeCell(core[cells[0]]) + CellWords(cells[1..], core)
  }

  predicate Recordable(m: Machine, w: nat, written: seq<nat>, m': Machine) {
    && w < 2 && |m.queues| == 2 && |m'.queues| == 2 && m.queues[w] != []
    && |m'.queues[w]| + 1 >= |m.queues[w]| && AllBelow(|m'.core|, written)
  }

  /** The words of one instruction: header, the cell executed, the processes
      queued behind, the cells written with what they now hold. */
  function EventWords(m: Machine, w: nat, written: seq<nat>, m': Machine): seq<nat>
    requires Recordable(m, w, written, m')
  {
    DistinctBelow(|m'.core|, written);
    var q, q' := m.queues[w], m'.queues[w];
    var pushed := |q'| + 1 - |q|;
    var cells := Distinct(written);
    [Header(w, pushed, |cells|), q[0]] + q'[|q| - 1..] + CellWords(cells, m'.core)
  }

  /** What a reader of an event finds: the warrior, how many processes are queued
      and how many cells written in the first word, the process's address, those
      queued, and every cell written with what it now holds, in order. */
  lemma EventReads(m: Machine, w: nat, written: seq<nat>, m': Machine)
    requires Recordable(m, w, written, m') && |m'.queues[w]| <= |m.queues[w]| + 2
    ensures var e, q, q', cells := EventWords(m, w, written, m'), m.queues[w], m'.queues[w], Distinct(written);
            var pushed := |q'| + 1 - |q|;
            && |e| == 2 + pushed + 4 * |cells| && AllBelow(|m'.core|, cells)
            && e[0] % 2 == w && e[0] / 2 % 4 == pushed && e[0] / 8 == |cells|
            && e[1] == q[0] && e[2..2 + pushed] == q'[|q| - 1..]
            && forall k :: 0 <= k < |cells| ==>
                 var at := 2 + pushed + 4 * k; e[at] == cells[k] && CellReads(e[at + 1..at + 4], m'.core[cells[k]])
  {
    hide Header, Distinct, CellWords, CellReads, EncodeCell;
    DistinctBelow(|m'.core|, written);
    var q, q', cells := m.queues[w], m'.queues[w], Distinct(written);
    var pushed := |q'| + 1 - |q|;
    HeaderReads(w, pushed, |cells|);
    Fields(Header(w, pushed, |cells|), w, pushed, |cells|);
    var tail := CellWords(cells, m'.core);
    var e := EventWords(m, w, written, m');
    forall k | 0 <= k < |cells|
      ensures var at := 2 + pushed + 4 * k; e[at] == cells[k] && CellReads(e[at + 1..at + 4], m'.core[cells[k]])
    {
      CellWordsAt(cells, m'.core, k);
      var at := 2 + pushed + 4 * k;
      assert e[at] == tail[4 * k] && e[at + 1..at + 4] == tail[4 * k + 1..4 * k + 4];
    }
  }

  lemma {:induction false} CellWordsAt(cells: seq<nat>, core: seq<Instruction>, k: nat)
    requires AllBelow(|core|, cells) && k < |cells|
    ensures var r := CellWords(cells, core);
            r[4 * k] == cells[k] && CellReads(r[4 * k + 1..4 * k + 4], core[cells[k]])
  {
    hide EncodeCell, CellReads;
    CellWordsRead(core[cells[k]]);
    var r := CellWords(cells, core);
    if k == 0 {
      assert r[1..4] == EncodeCell(core[cells[0]]);
    } else {
      CellWordsAt(cells[1..], core, k - 1);
      var rest := CellWords(cells[1..], core);
      assert r[4 * k] == rest[4 * (k - 1)];
      assert r[4 * k + 1..4 * k + 4] == rest[4 * (k - 1) + 1..4 * (k - 1) + 4];
    }
  }

  function Words(seen: seq<Seen>): seq<nat>
    requires forall k :: 0 <= k < |seen| ==> Recordable(seen[k].before, seen[k].w, seen[k].written, seen[k].after)
  {
    if seen == [] then []
    else EventWords(seen[0].before, seen[0].w, seen[0].written, seen[0].after) + Words(seen[1..])
  }

  // ---- the replay ----

  /** What a page keeps: the core as words, and the two queues. */
  datatype Page = Page(core: seq<nat>, queues: seq<seq<nat>>)

  /** `n` cells read from the front of `words` and put into the core; none when
      the words end or name no cell. */
  function PutCells(core: seq<nat>, words: seq<nat>, n: nat): (r: Option<seq<nat>>)
    ensures r.Some? ==> |r.value| == |core| && |words| >= 4 * n
    decreases n
  {
    if n == 0 then Some(core)
    else if |words| < 4 || 3 * words[0] + 3 > |core| then None
    else PutCells(Patched(core, 3 * words[0], words[1..4]), words[4..], n - 1)
  }

  /** Three words put at `at`. */
  function Patched(core: seq<nat>, at: nat, cell: seq<nat>): (r: seq<nat>)
    requires at + 3 <= |core| && |cell| == 3
    ensures |r| == |core|
  {
    core[..at] + cell + core[at + 3..]
  }

  /** The page after the event at the front of `words`, and the words it took;
      none when there is no such event. */
  function OneEvent(page: Page, words: seq<nat>): (r: Option<(Page, nat)>)
    requires |page.queues| == 2 && words != []
    ensures r.Some? ==> |r.value.0.queues| == 2 && 0 < r.value.1 <= |words|
  {
    var h := words[0];
    var w, pushed, written := Bits.And(h, 1), Bits.And(Bits.Shr(h, 1), 3), Bits.Shr(h, 3);
    OneBit(h);
    var q := page.queues[w];
    if |words| < 2 + pushed || q == [] || words[1] != q[0] then None
    else
      var core := PutCells(page.core, words[2 + pushed..], written);
      if core.None? then None
      else
        var behind: seq<nat> := q[1..] + words[2..2 + pushed];
        Some((Page(core.value, page.queues[w := behind]), 2 + pushed + 4 * written))
  }

  /** The page after all events; none when the words are no recording. */
  function Replayed(page: Page, words: seq<nat>): Option<Page>
    requires |page.queues| == 2
    decreases |words|
  {
    if words == [] then Some(page)
    else
      var e := OneEvent(page, words);
      if e.None? then None else Replayed(e.value.0, words[e.value.1..])
  }

  lemma OneBit(h: nat)
    ensures Bits.And(h, 1) < 2
  {
    LowBits(h, 1);
  }

  // ---- recorded, then replayed ----

  /** A core with the given cells taken from another. */
  function Overwrite(core: seq<Instruction>, cells: seq<nat>, from: seq<Instruction>): (r: seq<Instruction>)
    requires |core| == |from| && AllBelow(|from|, cells)
    ensures |r| == |core|
    ensures forall i :: 0 <= i < |core| ==> r[i] == if i in cells then from[i] else core[i]
    decreases |cells|
  {
    if cells == [] then core
    else
      assert cells == [cells[0]] + cells[1..];
      Overwrite(core[cells[0] := from[cells[0]]], cells[1..], from)
  }

  lemma {:induction false} PutCellsOverwrites(core: seq<Instruction>, cells: seq<nat>, from: seq<Instruction>,
                                              rest: seq<nat>)
    requires |core| == |from| && AllBelow(|from|, cells)
    ensures PutCells(EncodeCore(core), CellWords(cells, from) + rest,
              |cells|) == Some(EncodeCore(Overwrite(core, cells, from)))
    decreases |cells|
  {
    hide EncodeCell, EncodeCore;
    if cells == [] {
      assert CellWords(cells, from) + rest == rest;
    } else {
      var c := cells[0];
      FrontCell(c, EncodeCell(from[c]), CellWords(cells[1..], from), rest);
      CoreWordsUpdate(core, c, from[c]);
      PutCellsOverwrites(core[c := from[c]], cells[1..], from, rest);
    }
  }

  lemma FrontCell(c: nat, v: seq<nat>, x: seq<nat>, rest: seq<nat>)
    requires |v| == 3
    ensures var words := [c] + v + x + rest;
            |words| >= 4 && words[0] == c && words[1..4] == v && words[4..] == x + rest
  {
  }

  /** The page showing a machine. */
  function Shown(m: Machine): Page {
    Page(EncodeCore(m.core), m.queues)
  }

  lemma StepIsRecordable(cfg: Config, m: Machine, w: nat)
    requires Valid(cfg, m) && w < 2 && m.queues[w] != []
    ensures var s := Step(cfg, m, w);
            && Recordable(m, w, s.written, s.m) && |s.m.core| == |m.core| && AllBelow(|s.m.core|, Distinct(s.written))
            && |s.m.queues[w]| <= |m.queues[w]| + 1 && s.m.queues[w][..|m.queues[w]| - 1] == m.queues[w][1..]
            && s.m.queues[1 - w] == m.queues[1 - w]
            && Overwrite(m.core, Distinct(s.written), s.m.core) == s.m.core
            && |Distinct(s.written)| <= 3
  {
    hide Step, Distinct, Valid;
    ValidLengths(cfg, m);
    StepFrame(cfg, m, w);
    StepQueue(cfg, m, w);
    StepKeepsValid(cfg, m, w);
    var s := Step(cfg, m, w);
    ValidLengths(cfg, s.m);
    DistinctCells(s.written);
    DistinctBelow(|s.m.core|, s.written);
    assert Overwrite(m.core, Distinct(s.written), s.m.core) == s.m.core;
  }

  lemma ValidLengths(cfg: Config, m: Machine)
    requires Valid(cfg, m)
    ensures |m.core| == cfg.coreSize && |m.queues| == 2
  {
  }

  /** Replaying the words of one instruction takes the page from the machine
      before it to the machine after it. */
  lemma EventReplays(cfg: Config, m: Machine, w: nat, rest: seq<nat>)
    requires Valid(cfg, m) && w < 2 && m.queues[w] != []
    ensures var s := Step(cfg, m, w);
            && Recordable(m, w, s.written, s.m) && |m.queues| == 2 && |s.m.queues| == 2
            && Replayed(Shown(m), EventWords(m, w, s.written, s.m) + rest) == Replayed(Shown(s.m), rest)
  {
    hide Step, Distinct, Bits.And, Bits.Shr, Header, EncodeCore, Valid, Overwrite, CellWords;
    StepIsRecordable(cfg, m, w);
    var s := Step(cfg, m, w);
    var q, q' := m.queues[w], s.m.queues[w];
    ValidLengths(cfg, m);
    var cells := Distinct(s.written);
    var pushed := |q'| + 1 - |q|;
    HeaderReads(w, pushed, |cells|);
    EventSlices(Header(w, pushed, |cells|), q[0], q'[|q| - 1..], CellWords(cells, s.m.core), rest);
    PutCellsOverwrites(m.core, cells, s.m.core, rest);
    assert q[1..] + q'[|q| - 1..] == q';
    assert m.queues[w := q'] == s.m.queues;
  }

  lemma EventSlices(h: nat, at: nat, pushed: seq<nat>, cells: seq<nat>, rest: seq<nat>)
    ensures var words := [h, at] + pushed + cells + rest;
            && |words| == 2 + |pushed| + |cells| + |rest|
            && words[0] == h && words[1] == at && words[2..2 + |pushed|] == pushed
            && words[2 + |pushed|..] == cells + rest && words[2 + |pushed| + |cells|..] == rest
  {
  }

  /** Every instruction of a battle can be recorded. */
  predicate AllRecordable(seen: seq<Seen>) {
    forall k :: 0 <= k < |seen| ==> Recordable(seen[k].before, seen[k].w, seen[k].written, seen[k].after)
  }

  lemma {:induction false} WatchIsRecordable(cfg: Config, m: Machine, w: nat, budget: nat)
    requires Valid(cfg, m) && w < 2 && m.queues[w] != [] && m.queues[1 - w] != []
    ensures AllRecordable(Watch(cfg, m, w, budget))
    decreases budget
  {
    hide Step, Recordable;
    if budget > 0 {
      var s := Step(cfg, m, w);
      StepIsRecordable(cfg, m, w);
      StepKeepsValid(cfg, m, w);
      if s.alive {
        WatchIsRecordable(cfg, s.m, 1 - w, budget - 1);
      }
    }
  }

  /** From any machine in which both warriors live, the words recorded take the
      page that shows it to the page that shows the end. */
  lemma {:induction false} BattleReplays(cfg: Config, m: Machine, w: nat, budget: nat)
    requires Valid(cfg, m) && w < 2 && m.queues[w] != [] && m.queues[1 - w] != []
    ensures |m.queues| == 2 && AllRecordable(Watch(cfg, m, w, budget))
    ensures Replayed(Shown(m), Words(Watch(cfg, m, w, budget))) == Some(Shown(Run(cfg, m, w, budget).m))
    decreases budget
  {
    hide Step, Recordable, EventWords, Replayed, EncodeCore;
    WatchIsRecordable(cfg, m, w, budget);
    if budget == 0 {
      NothingReplays(Shown(m));
    } else {
      var s := Step(cfg, m, w);
      StepKeepsValid(cfg, m, w);
      var seen := Watch(cfg, m, w, budget);
      var rest := if s.alive then Watch(cfg, s.m, 1 - w, budget - 1) else [];
      assert seen[1..] == rest;
      EventReplays(cfg, m, w, Words(rest));
      if s.alive {
        BattleReplays(cfg, s.m, 1 - w, budget - 1);
      } else {
        NothingReplays(Shown(s.m));
      }
    }
  }

  lemma NothingReplays(page: Page)
    requires |page.queues| == 2
    ensures Replayed(page, []) == Some(page)
  {
  }

  /** For every round: replaying its words from the core as loaded and one
      process each rebuilds the core the round ended with and both queues. */
  lemma RoundReplays(cfg: Config, m: Machine, a: Warrior, b: Warrior, posA: nat, posB: nat, first: nat)
    requires Players(cfg, a, b) && ValidPspace(cfg, m)
    requires posA < cfg.coreSize && posB < cfg.coreSize && first < 2
    ensures var loaded := Load(cfg, m, a, b, posA, posB);
            var seen := Watch(cfg, loaded, first, cfg.maxCycles * 2);
            var end := Round(cfg, m, a, b, posA, posB, first).m;
            var heads := [[Plus(cfg.coreSize, posA, a.start)], [Plus(cfg.coreSize, posB, b.start)]];
            && AllRecordable(seen)
            && Replayed(Page(EncodeCore(loaded.core), heads),
               Words(seen)) == Some(Page(EncodeCore(end.core), end.queues))
  {
    hide Run, Watch, Valid, ValidPspace, LoadCode, EmptyCore, EncodeCore, Replayed;
    BattleReplays(cfg, Load(cfg, m, a, b, posA, posB), first, cfg.maxCycles * 2);
  }

  // ---- the replay as the page runs it ----

  /** Reads the words one by one; none when they are no recording. */
  method Replay(core: seq<nat>, events: seq<nat>, queues: seq<seq<nat>>) returns (end: Option<Page>)
    requires |queues| == 2
    ensures end == Replayed(Page(core, queues), events)
  {
    hide OneEvent;
    var page := Page(core, queues);
    var i: nat := 0;
    while i < |events|
      invariant i <= |events| && |page.queues| == 2
      invariant Replayed(page, events[i..]) == Replayed(Page(core, queues), events)
    {
      ghost var words := events[i..];
      var e := TakeEvent(page, events, i);
      if e.None? {
        return None;
      }
      assert words[e.value.1..] == events[i + e.value.1..];
      page := e.value.0;
      i := i + e.value.1;
    }
    assert events[i..] == [];
    end := Some(page);
  }

  method TakeEvent(page: Page, events: seq<nat>, from: nat) returns (r: Option<(Page, nat)>)
    requires |page.queues| == 2 && from < |events|
    ensures r == OneEvent(page, events[from..])
  {
    hide PutCells, Bits.And, Bits.Shr;
    ghost var words := events[from..];
    var h := events[from];
    var w, pushed, written := Bits.And(h, 1), Bits.And(Bits.Shr(h, 1), 3), Bits.Shr(h, 3);
    OneBit(h);
    var q := page.queues[w];
    if from + 2 + pushed > |events| || q == [] || q[0] != events[from + 1] {
      return None;
    }
    var i := from + 2;
    var behind: seq<nat> := q[1..] + events[i..i + pushed];
    i := i + pushed;
    assert words[2..2 + pushed] == events[from + 2..i] && words[2 + pushed..] == events[i..];
    var put := PutAll(page.core, events, i, written);
    if put.None? {
      return None;
    }
    r := Some((Page(put.value, page.queues[w := behind]), 2 + pushed + 4 * written));
  }

  method PutAll(core: seq<nat>, events: seq<nat>, from: nat, n: nat) returns (r: Option<seq<nat>>)
    requires from <= |events|
    ensures r == PutCells(core, events[from..], n)
  {
    var cells := core;
    var i := from;
    for k := 0 to n
      invariant i == from + 4 * k <= |events|
      invariant PutCells(cells, events[i..], n - k) == PutCells(core, events[from..], n)
    {
      if i + 4 > |events| {
        return None;
      }
      var c := events[i];
      if 3 * c + 3 > |cells| {
        return None;
      }
      assert events[i..][1..4] == events[i + 1..i + 4] && events[i..][4..] == events[i + 4..];
      cells := cells[..3 * c] + events[i + 1..i + 4] + cells[3 * c + 3..];
      i := i + 4;
    }
    r := Some(cells);
  }

  // ---- the recorder ----

  class Recorder {
    var core: seq<nat>
    var events: seq<nat>
    /** The head of each queue, and its length, as of the last instruction. */
    var head: seq<nat>
    var len: seq<nat>

    constructor ()
      ensures events == []
    {
      core, events, head, len := [], [], [0, 0], [0, 0];
    }

    /** What the recorder remembers of the queues is what they are. */
    ghost predicate InSync(m: Machine)
      reads this
    {
      && |m.queues| == 2 && |head| == 2 && |len| == 2
      && len[0] == |m.queues[0]| && len[1] == |m.queues[1]|
      && (m.queues[0] != [] ==> head[0] == m.queues[0][0])
      && (m.queues[1] != [] ==> head[1] == m.queues[1][0])
    }

    method Loaded(mars: Mars)
      requires |mars.queues| == 2
      modifies this
      ensures core == EncodeCore(mars.core[..]) && InSync(mars.Abs()) && events == old(events)
    {
      core := EncodeAll(mars);
      head := [First(mars.queues[0]), First(mars.queues[1])];
      len := [|mars.queues[0]|, |mars.queues[1]|];
    }

    static function First(q: seq<nat>): nat {
      if q == [] then 0 else q[0]
    }

    /** `before` is the machine the instruction found. */
    method AfterStep(mars: Mars, w: nat, written: seq<nat>, ghost before: Machine)
      requires InSync(before) && Recordable(before, w, written, mars.Abs())
      requires mars.queues[1 - w] == before.queues[1 - w]
      modifies this`events, this`head, this`len
      ensures events == old(events) + EventWords(before, w, written, mars.Abs())
      ensures InSync(mars.Abs())
    {
      hide EventWords;
      PushEvent(mars, w, written, before);
      head := head[w := First(mars.queues[w])];
      len := len[w := |mars.queues[w]|];
    }

    method PushEvent(mars: Mars, w: nat, written: seq<nat>, ghost before: Machine)
      requires InSync(before) && Recordable(before, w, written, mars.Abs())
      modifies this`events
      ensures events == old(events) + EventWords(before, w, written, mars.Abs())
    {
      hide Distinct, Header, CellWords, AllBelow;
      var n := |mars.queues[w]|;
      var pushed := n + 1 - len[w];
      var cells := Distinct(written);
      DistinctBelow(mars.core.Length, written);
      Appended(events, [Header(w, pushed, |cells|), head[w]], mars.queues[w][n - pushed..],
          CellWords(cells, mars.core[..]));
      events := events + [Header(w, pushed, |cells|), head[w]];
      events := events + mars.queues[w][n - pushed..];
      PushCells(mars, cells);
    }

    method PushCells(mars: Mars, cells: seq<nat>)
      requires AllBelow(mars.core.Length, cells)
      modifies this`events
      ensures events == old(events) + CellWords(cells, mars.core[..])
    {
      hide EncodeCell;
      assert cells[..0] == [];
      for k := 0 to |cells|
        invariant events == old(events) + CellWords(cells[..k], mars.core[..])
      {
        assert cells[..k + 1] == cells[..k] + [cells[k]];
        CellWordsAppend(cells[..k], cells[k], mars.core[..]);
        events := events + [cells[k]];
        events := events + EncodeCell(mars.core[cells[k]]);
      }
      assert cells[..|cells|] == cells;
    }
  }

  lemma OneCellWords(c: nat, core: seq<Instruction>)
    requires c < |core|
    ensures CellWords([c], core) == [c] + EncodeCell(core[c])
  {
    hide EncodeCell;
    assert [c][1..] == [];
  }

  lemma {:induction false} CellWordsAppend(cells: seq<nat>, c: nat, core: seq<Instruction>)
    requires AllBelow(|core|, cells) && c < |core|
    ensures AllBelow(|core|, cells + [c])
    ensures CellWords(cells + [c], core) == CellWords(cells, core) + ([c] + EncodeCell(core[c]))
    decreases |cells|
  {
    hide EncodeCell;
    if cells == [] {
      OneCellWords(c, core);
      assert [] + [c] == [c];
    } else {
      var front, back := [cells[0]] + EncodeCell(core[cells[0]]), [c] + EncodeCell(core[c]);
      CellWordsAppend(cells[1..], c, core);
      assert (cells + [c])[0] == cells[0] && (cells + [c])[1..] == cells[1..] + [c];
      assert CellWords(cells + [c], core) == front + CellWords(cells[1..] + [c], core);
      Associative(front, CellWords(cells[1..], core), back);
    }
  }

  lemma Appended(e: seq<nat>, x: seq<nat>, y: seq<nat>, z: seq<nat>)
    ensures e + x + y + z == e + (x + y + z)
  {
  }

  lemma Associative(x: seq<nat>, y: seq<nat>, z: seq<nat>)
    ensures x + (y + z) == (x + y) + z
  {
  }

  lemma {:induction false} WordsAppend(seen: seq<Seen>, s: Seen)
    requires AllRecordable(seen) && Recordable(s.before, s.w, s.written, s.after)
    ensures AllRecordable(seen + [s])
    ensures Words(seen + [s]) == Words(seen) + EventWords(s.before, s.w, s.written, s.after)
  {
    hide EventWords, Recordable;
    assert AllRecordable(seen + [s]);
    if seen == [] {
      assert Words([s]) == EventWords(s.before, s.w, s.written, s.after);
      assert [] + [s] == [s];
    } else {
      WordsAppend(seen[1..], s);
      assert (seen + [s])[1..] == seen[1..] + [s];
    }
  }

  // ---- recording a round of a match ----

  method RecordMove(mars: Mars, w: nat, rec: Recorder, ghost left: nat) returns (alive: bool)
    requires mars.Ready() && w < 2 && mars.queues[w] != [] && mars.queues[1 - w] != [] && left > 0
    requires rec.InSync(mars.Abs())
    modifies mars, mars.core, rec`events, rec`head, rec`len
    ensures mars.Ready() && rec.InSync(mars.Abs())
    ensures alive ==> mars.queues[w] != [] && mars.queues[1 - w] != []
    ensures var m := old(mars.Abs());
            var s := Step(mars.cfg, m, w);
            && s.alive == alive && s.m == mars.Abs() && Recordable(m, w, s.written, s.m)
            && rec.events == old(rec.events) + EventWords(m, w, s.written, s.m)
            && Run(mars.cfg, m, w, left) == (if !alive then Played(s.m, Win(1 - w), 1)
                                             else var r := Run(mars.cfg, s.m, 1 - w,
                                                 left - 1); r.(steps := r.steps + 1))
            && Watch(mars.cfg, m, w, left) == [Seen(m, w, s.written, s.m)] + if alive then Watch(mars.cfg, s.m, 1 - w,
               left - 1) else []
  {
    hide Step, Recordable, EventWords;
    ghost var m := mars.Abs();
    StepIsRecordable(mars.cfg, m, w);
    StepKeepsValid(mars.cfg, m, w);
    var written;
    alive, written := mars.StepNoting(w);
    rec.AfterStep(mars, w, written, m);
  }

  /** `Mars.Battle` with the recorder watching. */
  method RecordBattle(mars: Mars, first: nat, rec: Recorder) returns (outcome: Outcome)
    requires mars.Ready() && first < 2 && mars.queues[0] != [] && mars.queues[1] != []
    requires rec.InSync(mars.Abs())
    modifies mars, mars.core, rec`events, rec`head, rec`len
    ensures mars.Ready() && (outcome.Win? ==> outcome.w < 2)
    ensures Played(mars.Abs(), outcome, mars.lastRoundSteps) == Run(mars.cfg, old(mars.Abs()), first,
              mars.cfg.maxCycles * 2)
    ensures var seen := Watch(mars.cfg, old(mars.Abs()), first, mars.cfg.maxCycles * 2);
            AllRecordable(seen) && rec.events == old(rec.events) + Words(seen)
  {
    hide Valid, Run, Step, Watch, Recordable, EventWords, Words;
    var left: nat := mars.cfg.maxCycles * 2;
    ghost var whole, all := Run(mars.cfg, mars.Abs(), first, left), Watch(mars.cfg, mars.Abs(), first, left);
    ghost var rest, seen: seq<Seen> := whole, [];
    var w: nat := first;
    var done: nat := 0;
    outcome := Tie;
    NoWords();
    while left > 0
      invariant mars.Ready() && w < 2 && mars.queues[w] != [] && mars.queues[1 - w] != [] && rec.InSync(mars.Abs())
      invariant rest == Run(mars.cfg, mars.Abs(), w, left) && whole == rest.(steps := rest.steps + done)
      invariant all == seen + Watch(mars.cfg, mars.Abs(), w, left)
      invariant AllRecordable(seen) && rec.events == old(rec.events) + Words(seen)
    {
      ghost var m := mars.Abs();
      done := done + 1;
      var alive := RecordMove(mars, w, rec, left);
      ghost var s := Step(mars.cfg, m, w);
      ghost var sight := Seen(m, w, s.written, s.m);
      WordsAppend(seen, sight);
      seen := seen + [sight];
      left := left - 1;
      if !alive {
        outcome := Win(1 - w);
        mars.lastRoundSteps := done;
        assert all == seen;
        return;
      }
      w := 1 - w;
      rest := Run(mars.cfg, mars.Abs(), w, left);
    }
    OutOfBudget(mars.cfg, mars.Abs(), w);
    NothingToWatch(mars.cfg, mars.Abs(), w);
    mars.lastRoundSteps := done;
    assert all == seen;
  }

  lemma NoWords()
    ensures Words([]) == []
  {
  }

  /** A round with the recorder watching: the same round, its core as loaded and
      its words in the recorder. */
  method RecordRound(mars: Mars, a: Warrior, b: Warrior, posA: nat, posB: nat, first: nat, rec: Recorder)
    returns (outcome: Outcome)
    requires mars.Fits() && Players(mars.cfg, a, b) && ValidPspace(mars.cfg, mars.Abs())
    requires posA < mars.cs && posB < mars.cs && first < 2
    modifies mars, mars.core, rec
    ensures mars.Ready() && (outcome.Win? ==> outcome.w < 2)
    ensures var p := Match.Round(mars.cfg, old(mars.Abs()), a, b, posA, posB, first);
            mars.Abs() == p.m && outcome == p.outcome && mars.lastRoundSteps == p.steps
    ensures var loaded := Load(mars.cfg, old(mars.Abs()), a, b, posA, posB);
            var seen := Watch(mars.cfg, loaded, first, mars.cfg.maxCycles * 2);
            rec.core == EncodeCore(loaded.core) && AllRecordable(seen) && rec.events == old(rec.events) + Words(seen)
  {
    hide Run, Watch, ValidCore, LoadCode, EncodeCore, Words, Recordable;
    mars.Load(a, b, posA, posB);
    rec.Loaded(mars);
    outcome := RecordBattle(mars, first, rec);
    FinishKeepsValidIff(mars.cfg, mars.Abs(), outcome);
    match outcome
    case Win(x) => mars.lastResult := mars.lastResult[x := 1][1 - x := 0];
    case Tie => mars.lastResult := [2, 2];
  }

  /** What recording a round hands to the page. */
  datatype Recording = Recording(core: seq<nat>, events: seq<nat>, end: seq<nat>, position: nat, outcome: Outcome,
      steps: nat)

  /** Round `round`, counted from 1, of the match of `a` and `b`, played after
      the rounds before it. Its recording replays: the page ends on the core the
      round ended with. */
  method RecordRoundOfMatch(cfg: Config, a: Warrior, b: Warrior, seed: int, round: nat) returns (r: Recording)
    requires Players(cfg, a, b) && Rng.Int32(seed) && round >= 1
    ensures var cs, p := cfg.coreSize, S.RoundAt(cfg, a, b, seed, round - 1);
            var core := S.LoadedAt(cfg, a, b, seed, round - 1).core;
            && r.position == Position(cfg, Rng.Drawn(seed, round - 1)) && r.outcome == p.outcome && r.steps == p.steps
            && r.core == EncodeCore(core) && r.end == EncodeCore(p.m.core)
            && CoreReads(r.core, core) && CoreReads(r.end, p.m.core)
            && Replayed(Page(r.core, [[a.start], [(r.position + b.start) % cs]]), r.events)
               == Some(Page(r.end, p.m.queues))
  {
    hide Valid, ValidPspace, Run, Match.Round, Match.BeginMatch, NormalisedWarrior, Rng.Next, Load, EncodeCore;
    hide Replayed, CoreReads;
    var mars := new Mars(cfg);
    NewMatch(cfg, mars.Abs(), a, b);
    mars.BeginMatch(a, b);
    var drawn := PlayRounds(mars, a, b, seed, round - 1);
    var pos := cfg.minDistance + drawn % (cfg.coreSize + 1 - 2 * cfg.minDistance);
    assert pos == Position(cfg, drawn);
    S.RoundsCount(cfg, a, b, seed, 0, round - 1, NOSCORE);
    HeadsAre(cfg, a, b, pos);
    r := RecordPlaced(mars, a, b, pos, (round - 1) % 2);
  }

  lemma HeadsAre(cfg: Config, a: Warrior, b: Warrior, pos: nat)
    requires Players(cfg, a, b) && pos < cfg.coreSize
    ensures Plus(cfg.coreSize, 0, a.start) == a.start
    ensures Plus(cfg.coreSize, pos, b.start) == (pos + b.start) % cfg.coreSize
  {
    FoldIsModulo(cfg.coreSize, pos, b.start);
  }

  method RecordPlaced(mars: Mars, a: Warrior, b: Warrior, pos: nat, first: nat) returns (r: Recording)
    requires mars.Fits() && Players(mars.cfg, a, b) && ValidPspace(mars.cfg, mars.Abs())
    requires pos < mars.cs && first < 2
    modifies mars, mars.core
    ensures var p := Match.Round(mars.cfg, old(mars.Abs()), a, b, 0, pos, first);
            && r.position == pos && r.outcome == p.outcome && r.steps == p.steps && r.end == EncodeCore(p.m.core)
            && r.core == EncodeCore(Load(mars.cfg, old(mars.Abs()), a, b, 0, pos).core) && |p.m.queues| == 2
            && CoreReads(r.core, Load(mars.cfg, old(mars.Abs()), a, b, 0, pos).core) && CoreReads(r.end, p.m.core)
            && Replayed(Page(r.core, [[Plus(mars.cs, 0, a.start)], [Plus(mars.cs, pos, b.start)]]), r.events)
               == Some(Page(r.end, p.m.queues))
  {
    hide ValidPspace, Run, Match.Round, NormalisedWarrior, Load, Watch, EncodeCore, Words, Recordable, Replayed, Plus;
    hide CoreReads;
    RoundReplays(mars.cfg, mars.Abs(), a, b, 0, pos, first);
    var rec := new Recorder();
    var outcome := RecordRound(mars, a, b, 0, pos, first, rec);
    var end := EncodeAll(mars);
    r := Recording(rec.core, rec.events, end, pos, outcome, mars.lastRoundSteps);
    ghost var seen := Watch(mars.cfg, Load(mars.cfg, old(mars.Abs()), a, b, 0, pos), first, mars.cfg.maxCycles * 2);
    assert [] + Words(seen) == Words(seen);
    CoreWordsRead(Load(mars.cfg, old(mars.Abs()), a, b, 0, pos).core);
    CoreWordsRead(Match.Round(mars.cfg, old(mars.Abs()), a, b, 0, pos, first).m.core);
  }

  /** The first `n` rounds of a match begun; the seed the next one draws from. */
  method PlayRounds(mars: Mars, a: Warrior, b: Warrior, seed: int, n: nat) returns (drawn: int)
    requires mars.Fits() && Players(mars.cfg, a, b) && ValidPspace(mars.cfg, mars.Abs()) && Rng.Int32(seed)
    modifies mars, mars.core
    ensures mars.Fits() && ValidPspace(mars.cfg, mars.Abs()) && drawn == Rng.Drawn(seed, n)
    ensures mars.Abs() == Rounds(mars.cfg, old(mars.Abs()), a, b, 0, n, seed, NOSCORE).m
  {
    hide Valid, ValidPspace, Run, Match.Round, NormalisedWarrior, Rng.Next;
    var sep := mars.cfg.minDistance;
    var positions := mars.cfg.coreSize + 1 - 2 * sep;
    var score := NOSCORE;
    drawn := seed;
    ghost var whole := Rounds(mars.cfg, mars.Abs(), a, b, 0, n, seed, NOSCORE).m;
    for k := 0 to n
      invariant mars.Fits() && ValidPspace(mars.cfg, mars.Abs())
      invariant Rng.Int32(drawn) && drawn == Rng.Drawn(seed, k)
      invariant Rounds(mars.cfg, mars.Abs(), a, b, k, n, drawn, score).m == whole
    {
      var pos := sep + drawn % positions;
      assert pos == Position(mars.cfg, drawn);
      drawn := Rng.Next(drawn);
      var outcome := mars.Round(a, b, 0, pos, k % 2);
      score := Count(score, outcome);
    }
  }

  method EncodeAll(mars: Mars) returns (words: seq<nat>)
    ensures words == EncodeCore(mars.core[..])
  {
    hide EncodeCell;
    words := [];
    for k := 0 to mars.core.Length
      invariant words == EncodeCore(mars.core[..k])
    {
      assert mars.core[..k + 1][..k] == mars.core[..k];
      words := words + EncodeCell(mars.core[k]);
    }
    assert mars.core[..mars.core.Length] == mars.core[..];
  }
}
