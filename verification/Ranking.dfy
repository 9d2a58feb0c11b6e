/** The table of a hill: each member's record against the others, and the order
    the rules give (src/hill.rs:830-916). */
module Ranking {
  import opened Match

  /** The first 16 hex digits of a source's hash, as the number they spell:
      ids of equal length sort as their numbers do. */
  type Id = nat

  datatype Points = Points(win: int, tie: int, loss: int)

  datatype Member = Member(id: Id, name: string, author: string, file: string, arrived: nat)

  /** A match's cache key: the two ids in playing order. */
  type Key = (Id, Id)

  function Pairing(x: Id, y: Id): (k: Key) {
    if x < y then (x, y) else (y, x)
  }

  // ---- records ----

  datatype Tally = Tally(score: int, wins: nat, ties: nat, losses: nat)
  {
    function Plus(t: Tally): Tally {
      Tally(score + t.score, wins + t.wins, ties + t.ties, losses + t.losses)
    }
  }

  const NOTHING := Tally(0, 0, 0, 0)

  /** What the match against `y` brings `x`; nothing when none is recorded or
      `y` is `x` itself. */
  function Brings(p: Points, matches: map<Key, Score>, x: Id, y: Id): Tally {
    var k := Pairing(x, y);
    if x == y || k !in matches then NOTHING
    else
      var s := matches[k];
      var won, lost := if k.0 == x then s.w1 else s.w2, if k.0 == x then s.w2 else s.w1;
      Tally(p.win * won + p.tie * s.ties + p.loss * lost, won, s.ties, lost)
  }

  /** The record of `x` against all of `ms`. */
  function Total(p: Points, matches: map<Key, Score>, x: Id, ms: seq<Member>): Tally {
    if ms == [] then NOTHING
    else Brings(p, matches, x, ms[0].id).Plus(Total(p, matches, x, ms[1..]))
  }

  lemma {:induction false} TotalAppends(p: Points, matches: map<Key, Score>, x: Id, ms: seq<Member>, m: Member)
    ensures Total(p, matches, x, ms + [m]) == Total(p, matches, x, ms).Plus(Brings(p, matches, x, m.id))
  {
    hide Brings;
    if ms == [] {
      assert [] + [m] == [m] && [m][1..] == [];
    } else {
      TotalAppends(p, matches, x, ms[1..], m);
      assert (ms + [m])[1..] == ms[1..] + [m];
    }
  }

  /** The points of a match, for the warrior whose id comes first and for the
      other one. */
  lemma BringsReads(p: Points, matches: map<Key, Score>, x: Id, y: Id)
    requires x < y
    ensures (x, y) in matches ==>
              var s := matches[(x, y)];
              && Brings(p, matches, x, y)
                 == Tally(p.win * s.w1 + p.tie * s.ties + p.loss * s.w2, s.w1, s.ties, s.w2)
              && Brings(p, matches, y, x)
                 == Tally(p.win * s.w2 + p.tie * s.ties + p.loss * s.w1, s.w2, s.ties, s.w1)
    ensures (x, y) !in matches ==>
              Brings(p, matches, x, y) == Brings(p, matches, y, x) == Tally(0, 0, 0, 0)
    ensures Brings(p, matches, x, x) == Tally(0, 0, 0, 0)
  {
  }

  /** A record is the sum of its matches: one opponent more adds what the match
      against it brings. */
  lemma {:induction false} TotalReads(p: Points, matches: map<Key, Score>, x: Id, ms: seq<Member>)
    ensures ms == [] ==> Total(p, matches, x, ms) == Tally(0, 0, 0, 0)
    ensures ms != [] ==>
              var t, before := Total(p, matches, x, ms), Total(p, matches, x, ms[..|ms| - 1]);
              var b := Brings(p, matches, x, ms[|ms| - 1].id);
              && t.score == before.score + b.score && t.wins == before.wins + b.wins
              && t.ties == before.ties + b.ties && t.losses == before.losses + b.losses
  {
    hide Brings;
    if |ms| > 1 {
      TotalReads(p, matches, x, ms[1..]);
      assert ms[1..][..|ms| - 2] == ms[..|ms| - 1][1..];
    }
  }

  /** Every pair of members has its result. */
  predicate Complete(matches: map<Key, Score>, ms: seq<Member>) {
    forall i, j :: 0 <= i < j < |ms| ==> Pairing(ms[i].id, ms[j].id) in matches
  }

  predicate Different(ms: seq<Member>) {
    forall i, j :: 0 <= i < j < |ms| ==> ms[i].id != ms[j].id
  }

  predicate ArrivedApart(ms: seq<Member>) {
    forall i, j :: 0 <= i < j < |ms| ==> ms[i].arrived != ms[j].arrived
  }

  // ---- order ----

  /** `x` ranks strictly above `y`: more points among `all`, or as many and on
      the right side of the tie rule. */
  predicate Above(p: Points, newer: bool, matches: map<Key, Score>, all: seq<Member>, x: Member, y: Member) {
    var s, t := Total(p, matches, x.id, all).score, Total(p, matches, y.id, all).score;
    s > t || (s == t && if newer then x.arrived > y.arrived else x.arrived < y.arrived)
  }

  /** Stable: among equals the one that came first stays first. */
  function Insert(p: Points, newer: bool, matches: map<Key, Score>, all: seq<Member>, m: Member,
                  ms: seq<Member>): seq<Member> {
    if ms == [] || !Above(p, newer, matches, all, ms[0], m) then [m] + ms
    else [ms[0]] + Insert(p, newer, matches, all, m, ms[1..])
  }

  function Sort(p: Points, newer: bool, matches: map<Key, Score>, all: seq<Member>, ms: seq<Member>): seq<Member> {
    if ms == [] then [] else Insert(p, newer, matches, all, ms[0], Sort(p, newer, matches, all, ms[1..]))
  }

  /** The members as the rules rank them. */
  function Ranked(p: Points, newer: bool, matches: map<Key, Score>, ms: seq<Member>): seq<Member> {
    Sort(p, newer, matches, ms, ms)
  }

  predicate InOrder(p: Points, newer: bool, matches: map<Key, Score>, all: seq<Member>, ms: seq<Member>) {
    forall i, j :: 0 <= i < j < |ms| ==> !Above(p, newer, matches, all, ms[j], ms[i])
  }

  lemma {:induction false} InsertKeeps(p: Points, newer: bool, matches: map<Key, Score>, all: seq<Member>, m: Member,
                                       ms: seq<Member>)
    ensures var r := Insert(p, newer, matches, all, m, ms);
            multiset(r) == multiset(ms) + multiset{m} && |r| == |ms| + 1
  {
    hide Above;
    if ms != [] && Above(p, newer, matches, all, ms[0], m) {
      InsertKeeps(p, newer, matches, all, m, ms[1..]);
      assert ms == [ms[0]] + ms[1..];
    }
  }

  lemma {:induction false} SortKeeps(p: Points, newer: bool, matches: map<Key, Score>, all: seq<Member>,
                                     ms: seq<Member>)
    ensures multiset(Sort(p, newer, matches, all, ms)) == multiset(ms) && |Sort(p, newer, matches, all, ms)| == |ms|
  {
    hide Insert;
    if ms != [] {
      SortKeeps(p, newer, matches, all, ms[1..]);
      InsertKeeps(p, newer, matches, all, ms[0], Sort(p, newer, matches, all, ms[1..]));
      assert ms == [ms[0]] + ms[1..];
    }
  }

  lemma RankedKeeps(p: Points, newer: bool, matches: map<Key, Score>, ms: seq<Member>)
    ensures multiset(Ranked(p, newer, matches, ms)) == multiset(ms) && |Ranked(p, newer, matches, ms)| == |ms|
  {
    SortKeeps(p, newer, matches, ms, ms);
  }

  lemma {:induction false} InsertInOrder(p: Points, newer: bool, matches: map<Key, Score>, all: seq<Member>, m: Member,
                                         ms: seq<Member>)
    requires InOrder(p, newer, matches, all, ms)
    ensures InOrder(p, newer, matches, all, Insert(p, newer, matches, all, m, ms))
  {
    if ms != [] && Above(p, newer, matches, all, ms[0], m) {
      InsertInOrder(p, newer, matches, all, m, ms[1..]);
      InsertKeeps(p, newer, matches, all, m, ms[1..]);
      var r := Insert(p, newer, matches, all, m, ms[1..]);
      forall j | 0 <= j < |r|
        ensures !Above(p, newer, matches, all, r[j], ms[0])
      {
        assert r[j] in multiset(ms[1..]) + multiset{m};
        if r[j] != m {
          assert r[j] in ms[1..];
        }
      }
    }
  }

  /** Ranking is a permutation in order. */
  lemma {:induction false} SortInOrder(p: Points, newer: bool, matches: map<Key, Score>, all: seq<Member>,
                                       ms: seq<Member>)
    ensures InOrder(p, newer, matches, all, Sort(p, newer, matches, all, ms))
  {
    hide Above, Insert, InOrder;
    if ms == [] {
      NothingInOrder(p, newer, matches, all);
    } else {
      SortInOrder(p, newer, matches, all, ms[1..]);
      InsertInOrder(p, newer, matches, all, ms[0], Sort(p, newer, matches, all, ms[1..]));
    }
  }

  /** No one is before a member with more points, nor before one with as many
      that arrived later, where the newer go first, or earlier, where not. */
  predicate Ordered(p: Points, newer: bool, matches: map<Key, Score>, all: seq<Member>, ms: seq<Member>) {
    forall i, j :: 0 <= i < j < |ms| ==>
      var s, t := Total(p, matches, ms[i].id, all).score, Total(p, matches, ms[j].id, all).score;
      s > t || (s == t && if newer then ms[i].arrived >= ms[j].arrived else ms[i].arrived <= ms[j].arrived)
  }

  /** So the rules rank them. */
  lemma RankedReads(p: Points, newer: bool, matches: map<Key, Score>, ms: seq<Member>)
    ensures Ordered(p, newer, matches, ms, Ranked(p, newer, matches, ms))
  {
    hide Total, Sort;
    SortInOrder(p, newer, matches, ms, ms);
    var r := Ranked(p, newer, matches, ms);
    forall i, j | 0 <= i < j < |r|
      ensures !Above(p, newer, matches, ms, r[j], r[i])
    {
    }
  }

  lemma NothingInOrder(p: Points, newer: bool, matches: map<Key, Score>, all: seq<Member>)
    ensures InOrder(p, newer, matches, all, [])
  {
  }

  /** Sorting what is in order changes nothing. */
  lemma {:induction false} SortedStays(p: Points, newer: bool, matches: map<Key, Score>, all: seq<Member>,
                                       ms: seq<Member>)
    requires InOrder(p, newer, matches, all, ms)
    ensures Sort(p, newer, matches, all, ms) == ms
  {
    if ms != [] {
      SortedStays(p, newer, matches, all, ms[1..]);
      if |ms| > 1 {
        assert !Above(p, newer, matches, all, ms[1], ms[0]);
      }
    }
  }

  /** A record does not depend on the order of the others. */
  lemma {:induction false} TotalInserts(p: Points, newer: bool, matches: map<Key, Score>, all: seq<Member>, x: Id,
                                        m: Member, ms: seq<Member>)
    ensures Total(p, matches, x, Insert(p, newer, matches, all, m, ms))
            == Brings(p, matches, x, m.id).Plus(Total(p, matches, x, ms))
  {
    hide Above, Brings;
    if ms != [] && Above(p, newer, matches, all, ms[0], m) {
      TotalInserts(p, newer, matches, all, x, m, ms[1..]);
    }
  }

  lemma {:induction false} TotalSorts(p: Points, newer: bool, matches: map<Key, Score>, all: seq<Member>, x: Id,
                                      ms: seq<Member>)
    ensures Total(p, matches, x, Sort(p, newer, matches, all, ms)) == Total(p, matches, x, ms)
  {
    hide Insert, Brings;
    if ms != [] {
      TotalSorts(p, newer, matches, all, x, ms[1..]);
      TotalInserts(p, newer, matches, all, x, ms[0], Sort(p, newer, matches, all, ms[1..]));
    }
  }

  /** The order found again from the table it gave is the same order. */
  lemma RankedTwice(p: Points, newer: bool, matches: map<Key, Score>, ms: seq<Member>)
    ensures Ranked(p, newer, matches, Ranked(p, newer, matches, ms)) == Ranked(p, newer, matches, ms)
  {
    hide Sort, Insert, Total;
    var r := Ranked(p, newer, matches, ms);
    SortInOrder(p, newer, matches, ms, ms);
    forall x: Member, y: Member
      ensures Above(p, newer, matches, r, x, y) == Above(p, newer, matches, ms, x, y)
    {
      TotalSorts(p, newer, matches, ms, x.id, ms);
      TotalSorts(p, newer, matches, ms, y.id, ms);
    }
    SortedStays(p, newer, matches, r, r);
  }

  /** Same records among the members, same order. */
  lemma {:induction false} RankedAlone(p: Points, newer: bool, matches: map<Key, Score>, ms: seq<Member>)
    requires |ms| <= 1
    ensures Ranked(p, newer, matches, ms) == ms
  {
    SortedStays(p, newer, matches, ms, ms);
  }

  /** Results of pairs not among the members do not matter. */
  lemma {:induction false} TotalOfPairs(p: Points, matches: map<Key, Score>, few: map<Key, Score>, x: Id,
                                        ms: seq<Member>)
    requires forall i :: 0 <= i < |ms| && ms[i].id != x ==>
               var k := Pairing(x, ms[i].id); k in matches && k in few && matches[k] == few[k]
    ensures Total(p, matches, x, ms) == Total(p, few, x, ms)
  {
    if ms != [] {
      TotalOfPairs(p, matches, few, x, ms[1..]);
    }
  }

  predicate Agree(p: Points, matches: map<Key, Score>, few: map<Key, Score>, all: seq<Member>, ms: seq<Member>) {
    forall m :: m in ms ==> Total(p, matches, m.id, all) == Total(p, few, m.id, all)
  }

  lemma {:induction false} InsertAgrees(p: Points, newer: bool, matches: map<Key, Score>, few: map<Key, Score>,
                                        all: seq<Member>, m: Member, ms: seq<Member>)
    requires Agree(p, matches, few, all, [m] + ms)
    ensures Insert(p, newer, matches, all, m, ms) == Insert(p, newer, few, all, m, ms)
  {
    if ms != [] {
      assert m in [m] + ms && ms[0] in [m] + ms;
      forall y | y in [m] + ms[1..]
        ensures y in [m] + ms
      {
      }
      InsertAgrees(p, newer, matches, few, all, m, ms[1..]);
    }
  }

  lemma {:induction false} SortAgrees(p: Points, newer: bool, matches: map<Key, Score>, few: map<Key, Score>,
                                      all: seq<Member>, ms: seq<Member>)
    requires Agree(p, matches, few, all, ms)
    ensures Sort(p, newer, matches, all, ms) == Sort(p, newer, few, all, ms)
  {
    hide Insert, Total;
    if ms != [] {
      SortAgrees(p, newer, matches, few, all, ms[1..]);
      var rest := Sort(p, newer, matches, all, ms[1..]);
      SortKeeps(p, newer, matches, all, ms[1..]);
      forall y | y in [ms[0]] + rest
        ensures y in ms
      {
        assert y == ms[0] || y in multiset(rest);
      }
      InsertAgrees(p, newer, matches, few, all, ms[0], rest);
    }
  }

  /** Dropping results that are not between members changes no ranking. */
  lemma RankedOfPairs(p: Points, newer: bool, matches: map<Key, Score>, few: map<Key, Score>, ms: seq<Member>)
    requires Different(ms) && Complete(matches, ms)
    requires forall i, j :: 0 <= i < j < |ms| ==> var k := Pairing(ms[i].id, ms[j].id); k in few && few[k] == matches[k]
    ensures Ranked(p, newer, matches, ms) == Ranked(p, newer, few, ms)
  {
    forall m | m in ms
      ensures Total(p, matches, m.id, ms) == Total(p, few, m.id, ms)
    {
      var i :| 0 <= i < |ms| && ms[i] == m;
      forall j | 0 <= j < |ms| && ms[j].id != m.id
        ensures var k := Pairing(m.id, ms[j].id); k in matches && k in few && matches[k] == few[k]
      {
        assert Pairing(m.id, ms[j].id) == Pairing(ms[if i < j then i else j].id, ms[if i < j then j else i].id);
      }
      TotalOfPairs(p, matches, few, m.id, ms);
    }
    SortAgrees(p, newer, matches, few, ms, ms);
  }

  /** Permutations keep members apart. */
  lemma PermutationKeeps(xs: seq<Member>, ys: seq<Member>)
    requires multiset(xs) == multiset(ys)
    requires Different(xs) && ArrivedApart(xs)
    ensures Different(ys) && ArrivedApart(ys)
  {
    assert |xs| == |multiset(xs)| == |multiset(ys)| == |ys|;
    forall i, j | 0 <= i < j < |ys|
      ensures ys[i].id != ys[j].id && ys[i].arrived != ys[j].arrived
    {
      assert ys[i] in multiset(xs) && ys[j] in multiset(xs);
      var k :| 0 <= k < |xs| && xs[k] == ys[i];
      var l :| 0 <= l < |xs| && xs[l] == ys[j];
      if k == l {
        TwiceThere(ys, i, j);
        OnceEach(xs, k);
        assert false;
      }
    }
  }

  lemma TwiceThere(ys: seq<Member>, i: nat, j: nat)
    requires i < j < |ys| && ys[i] == ys[j]
    ensures multiset(ys)[ys[i]] >= 2
  {
    assert ys == ys[..i] + [ys[i]] + ys[i + 1..j] + [ys[j]] + ys[j + 1..];
  }

  lemma OnceEach(xs: seq<Member>, k: nat)
    requires Different(xs) && k < |xs|
    ensures multiset(xs)[xs[k]] == 1
  {
    var x := xs[k];
    assert xs == xs[..k] + [x] + xs[k + 1..];
    assert x !in xs[..k] && x !in xs[k + 1..];
  }
}
