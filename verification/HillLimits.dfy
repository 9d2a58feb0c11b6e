/** When a ranking followed by a trim leaves the order the rules give: what
    src/hill.rs:651-653 does when no challenger joined. */
module HillLimits {
  import opened Redcode
  import opened Configs
  import opened Match
  import opened Engines
  import opened Ranking
  import opened Hills

  // ---- the last trim ----

  const WINS := Points(1, 0, 0)

  /** Member 1 beats member 0 once; member 0 beats the last twice. */
  function Members(n: nat): seq<Member> {
    seq(n, i requires 0 <= i < n => Member(i, "", "", "", i))
  }

  function Results(n: nat): map<Key, Score> {
    map i: nat, j: nat | 0 <= i < n && 0 <= j < n && i < j ::
      (i, j) := if i == 0 && j == 1 then Score(0, 1, 1)
                else if i == 0 && j == n - 1 then Score(2, 0, 0)
                else Score(0, 0, 2)
  }

  /** What member `x` scores against the first `k`. */
  function Expected(n: nat, x: nat, k: nat): nat {
    if x == 0 then (if k == n then 2 else 0) else if x == 1 then (if k >= 1 then 1 else 0) else 0
  }

  lemma {:induction false} ScoreUpTo(n: nat, x: nat, k: nat)
    requires n >= 3 && x < n && k <= n
    ensures Total(WINS, Results(n), x, Members(n)[..k]).score == Expected(n, x, k)
  {
    hide Results, Brings;
    var ms := Members(n);
    if k == 0 {
      assert ms[..0] == [];
    } else {
      ScoreUpTo(n, x, k - 1);
      assert ms[..k] == ms[..k - 1] + [ms[k - 1]];
      TotalAppends(WINS, Results(n), x, ms[..k - 1], ms[k - 1]);
      OneResult(n, x, k - 1);
    }
  }

  lemma OneResult(n: nat, x: nat, y: nat)
    requires n >= 3 && x < n && y < n
    ensures Brings(WINS, Results(n), x, y).score ==
            if x == 0 && y == n - 1 then 2 else if x == 1 && y == 0 then 1 else 0
  {
  }

  /** On any hill of more members than its size, two or more, results exist for
      which the order left by the last trim is not the order of what is left. */
  lemma TrimMisorders(size: nat, n: nat)
    requires n > size >= 2
    ensures Different(Members(n)) && ArrivedApart(Members(n)) && Complete(Results(n), Members(n))
    ensures var left := Trimmed(size, Ranked(WINS, false, Results(n), Members(n)));
            IdsOf(Ranked(WINS, false, Results(n), left)) != IdsOf(left)
  {
    hide Results, Total, Complete, InOrder, IdsOf, Sort;
    var ms, matches := Members(n), Results(n);
    ResultsComplete(n);
    AllInOrder(n);
    SortedStays(WINS, false, matches, ms, ms);
    var left := ms[..size];
    ScoreUpTo(n, 0, size);
    ScoreUpTo(n, 1, size);
    assert Above(WINS, false, matches, left, left[1], left[0]);
    MisorderedIds(matches, left);
  }

  lemma ResultsComplete(n: nat)
    ensures Complete(Results(n), Members(n))
  {
  }

  lemma AllInOrder(n: nat)
    requires n >= 3
    ensures InOrder(WINS, false, Results(n), Members(n), Members(n))
  {
    hide Results, Total;
    var ms := Members(n);
    assert ms[..n] == ms;
    forall i, j | 0 <= i < j < n
      ensures !Above(WINS, false, Results(n), ms, ms[j], ms[i])
    {
      ScoreUpTo(n, i, n);
      ScoreUpTo(n, j, n);
    }
  }

  lemma MisorderedIds(matches: map<Key, Score>, left: seq<Member>)
    requires |left| >= 2 && left == Members(|left|) && Above(WINS, false, matches, left, left[1], left[0])
    ensures IdsOf(Ranked(WINS, false, matches, left)) != IdsOf(left)
  {
    var r := Ranked(WINS, false, matches, left);
    SortInOrder(WINS, false, matches, left, left);
    RankedKeeps(WINS, false, matches, left);
    if IdsOf(r) == IdsOf(left) {
      forall i | 0 <= i < |left|
        ensures r[i] == left[i]
      {
        assert IdsOf(r)[i] == IdsOf(left)[i];
        assert r[i] in multiset(r);
        assert r[i] in left;
      }
      assert false;
    }
  }

  /** A ranking and a trim of `n` members leave the order the rules give, for
      all results and rules of points, exactly when the trim drops nobody or
      leaves at most one. */
  lemma TrimKeepsOrderIff(size: nat, n: nat)
    ensures (forall p: Points, newer: bool, matches: map<Key, Score>, ms: seq<Member> ::
               |ms| == n && Different(ms) && ArrivedApart(ms) && Complete(matches, ms) ==>
                 var left := Trimmed(size, Ranked(p, newer, matches, ms));
                 IdsOf(Ranked(p, newer, matches, left)) == IdsOf(left))
            <==> (size <= 1 || n <= size)
  {
    if size <= 1 || n <= size {
      forall p: Points, newer: bool, matches: map<Key, Score>, ms: seq<Member> | |ms| == n
        ensures var left := Trimmed(size, Ranked(p, newer, matches, ms));
                Ranked(p, newer, matches, left) == left
      {
        RankedKeeps(p, newer, matches, ms);
        RankedTwice(p, newer, matches, ms);
        if size == 1 && n > 1 {
          RankedAlone(p, newer, matches, Trimmed(size, Ranked(p, newer, matches, ms)));
        }
      }
    } else {
      TrimMisorders(size, n);
    }
  }

  // ---- a hill on which it happens ----

  /** The source of member `i`: ids are lengths in this world. */
  function Source(i: nat): string {
    seq(i, _ => 'x')
  }

  const BUILT := Compiled([], 0, None)

  /** A world whose matches come out as in `Results(n)`. */
  function ScriptedWorld(n: nat): World {
    World(
      (s: string) => |s|,
      (s: string) => "",
      (s: string) => "",
      (s: string, cfg: Config) => Some(BUILT),
      (cfg: Config, a: Compiled, b: Compiled, rounds: nat, seed: nat) =>
        if seed == 1 then Score(0, 1, 1) else if seed == 2 then Score(2, 0, 0) else Score(0, 0, 2),
      (x: Id, y: Id, positions: int) => if x == 0 && y == 1 then 1 else if x == 0 && y == n - 1 then 2 else 0,
      (d: nat, x: Id, y: Id, positions: int) => 0)
  }

  /** Rules of the usual sizes, two rounds a match, for a hill of `size`. */
  function SmallHill(size: nat): Rules {
    Rules(size, 2, false, Placement.Hashed, Params(8000, 80000, 8000, 100, 100), WINS)
  }

  /** A hill of `n` members, every match played. */
  function FullHill(size: nat, n: nat): Dir {
    Dir(State(n, Members(n)), Cache(SmallHill(size).Decides(), Results(n), map[]),
        map i: nat | 0 <= i < n :: i := Source(i))
  }

  lemma SourceBuilds(size: nat, n: nat, i: nat)
    requires i < n
    ensures var dir, f := FullHill(size, n), SmallHill(size).Decides();
            && Honest(ScriptedWorld(n), dir.sources, Members(n)[i])
            && EntryOf(ScriptedWorld(n), f, dir.sources, i) == Some(Contender(BUILT, BUILT))
  {
    hide Results;
  }

  lemma ScriptReplays(size: nat, n: nat, k: Key)
    requires n >= 3 && k in Results(n)
    ensures var dir, f := FullHill(size, n), SmallHill(size).Decides();
            Replays(ScriptedWorld(n), f, dir.sources, dir.cache, k)
  {
    hide EntryOf;
    SourceBuilds(size, n, k.0);
    SourceBuilds(size, n, k.1);
  }

  lemma MembersCount(n: nat)
    ensures |Members(n)| == n
  {
  }

  lemma ResultIsOfMembers(n: nat, k: Key)
    requires n >= 3 && k in Results(n)
    ensures k.0 < k.1 && k.0 in Ids(Members(n)) && k.1 in Ids(Members(n))
  {
    assert Members(n)[k.0] in Members(n) && Members(n)[k.1] in Members(n);
  }

  lemma FullHillIsSound(size: nat, n: nat)
    requires n >= 3
    ensures Sound(ScriptedWorld(n), FullHill(size, n))
  {
    hide Honest, Replays, ScriptedWorld, Results, Ids;
    var w, dir, f := ScriptedWorld(n), FullHill(size, n), SmallHill(size).Decides();
    forall m | m in Members(n)
      ensures Honest(w, dir.sources, m) && m.arrived < n
    {
      SourceBuilds(size, n, m.id);
    }
    forall k | k in dir.cache.matches
      ensures k.0 < k.1 && k.0 in Ids(Members(n)) && k.1 in Ids(Members(n)) && Replays(w, f, dir.sources, dir.cache, k)
    {
      ResultIsOfMembers(n, k);
      ScriptReplays(size, n, k);
    }
  }

  /** While the hill keeps everyone, the audit accepts it. */
  lemma FullHillVerifies(size: nat, n: nat)
    requires n >= 3
    ensures Verified(ScriptedWorld(n), SmallHill(0), FullHill(size, n))
  {
    hide Honest, Replays, ScriptedWorld, Results, Ids, Pairs, Entry, Complete, InOrder, Ranked;
    var w, dir, f, ms := ScriptedWorld(n), FullHill(size, n), SmallHill(0).Decides(), Members(n);
    forall m | m in ms
      ensures SourceGood(w, f, dir.sources, m)
    {
      SourceBuilds(size, n, m.id);
    }
    ResultsComplete(n);
    CompleteIsPairs(Results(n), ms);
    forall k | k in Pairs(ms)
      ensures Replays(w, f, dir.sources, dir.cache, k)
    {
      ScriptReplays(size, n, k);
    }
    forall k | k in dir.cache.matches
      ensures k in Pairs(ms)
    {
      ResultIsOfMembers(n, k);
      PairsByIds(ms, k.0, k.1);
    }
    AlreadyRanked(n);
  }

  lemma AlreadyRanked(n: nat)
    requires n >= 3
    ensures Ranked(WINS, false, Results(n), Members(n)) == Members(n)
  {
    hide Results, Total, InOrder, Sort;
    AllInOrder(n);
    SortedStays(WINS, false, Results(n), Members(n), Members(n));
  }

  /** What a challenge without files leaves of it. */
  function Cut(size: nat, n: nat): Dir {
    var ms := Settled(SmallHill(size), Results(n), Members(n));
    var dir := FullHill(size, n);
    Dir(State(n, ms), Retained(SmallHill(size).Decides(), dir.cache, Ids(ms)), dir.sources)
  }

  lemma CutIsChallenged(size: nat, n: nat)
    requires n >= 3
    ensures var w, rules, dir, dir' := ScriptedWorld(n), SmallHill(size), FullHill(size, n), Cut(size, n);
            && Challenged(w, rules, [], None, dir, dir', Log([], dir.cache))
            && Kept(w, rules.Decides(), dir'.sources, dir.state.members) == Members(n)
  {
    hide Settled, Results, Retained, Pairs, Replays, EntryOf, ScriptedWorld, Kept, PlayedOut, Admitted, Members;
    var w, rules, dir := ScriptedWorld(n), SmallHill(size), FullHill(size, n);
    var f, ms := rules.Decides(), Members(n);
    EverybodyBuilds(size, n);
    AllKept(w, f, dir.sources, ms);
    NobodyAdmitted(w, f, ms, dir.sources);
    NothingToPlay(w, f, dir.sources, ms, dir.cache, n);
    assert ms + [] == ms;
  }

  lemma EverybodyBuilds(size: nat, n: nat)
    ensures forall m :: m in Members(n) ==>
              EntryOf(ScriptedWorld(n), SmallHill(size).Decides(), FullHill(size, n).sources, m.id).Some?
  {
    hide EntryOf, ScriptedWorld, FullHill;
    forall m | m in Members(n)
      ensures EntryOf(ScriptedWorld(n), SmallHill(size).Decides(), FullHill(size, n).sources, m.id).Some?
    {
      SourceBuilds(size, n, m.id);
    }
  }

  lemma NothingToPlay(w: World, f: Fingerprint, sources: map<Id, string>, ms: seq<Member>, cache: Cache, n: nat)
    requires cache.matches == Results(n) && ms == Members(n)
    ensures PlayedOut(w, f, None, sources, ms, cache, cache)
  {
    hide Results, Pairs, Replays, StoredSeed, Members;
    ResultsComplete(n);
    CompleteIsPairs(Results(n), ms);
  }

  /** For every size of two or more and more members than it, there is a hill the
      audit accepts while it keeps everyone, which a challenge without files, once
      its size is lowered, leaves in an order the audit objects to. */
  lemma ChallengeMisorders(size: nat, n: nat)
    requires n > size >= 2
    ensures var w, rules, dir, dir' := ScriptedWorld(n), SmallHill(size), FullHill(size, n), Cut(size, n);
            var log := Log([], dir.cache);
            && rules.Check() && rules.size == size && Sound(w, dir)
            && |dir.state.members| == n && Verified(w, SmallHill(0), dir)
            && Challenged(w, rules, [], None, dir, dir', log)
            && |Kept(w, rules.Decides(), dir'.sources, dir.state.members)| == n
            && !Verified(w, rules, dir')
  {
    hide Results, Retained, Ids, Pairs, Replays, Challenged, Sound, Complete, Kept, IdsOf, Ranked, Trimmed, Members;
    hide ScriptedWorld;
    var w, rules, dir, dir' := ScriptedWorld(n), SmallHill(size), FullHill(size, n), Cut(size, n);
    var log := Log([], dir.cache);
    FullHillIsSound(size, n);
    FullHillVerifies(size, n);
    CutIsChallenged(size, n);
    ResultsComplete(n);
    TrimMisorders(size, n);
    assert |Members(n)| == n by { MembersCount(n); }
    FewResults(w, rules, [], None, dir, dir', log);
    RankedOfPairs(WINS, false, Results(n), dir'.cache.matches, dir'.state.members);
  }

  /** The guard of the final trim is exact: challenges of a hill of `size`, on
      which `kept` members still assemble and `entrants` enter, always leave what
      passes the audit exactly when somebody entered, the size is at most one, or
      nobody has to fall off. */
  lemma ChallengeVerifiesIff(size: nat, kept: nat, entrants: nat)
    ensures (forall w, rules, files, draw, dir, dir', log ::
               && Sound(w, dir) && Challenged(w, rules, files, draw, dir, dir', log)
               && rules.Check() && rules.size == size && |log.entrants| == entrants
               && |Kept(w, rules.Decides(), dir'.sources, dir.state.members)| == kept
               ==> Verified(w, rules, dir'))
            <==> (entrants > 0 || size <= 1 || kept <= size)
  {
    hide Sound, Challenged, Kept, Verified;
    if entrants > 0 || size <= 1 || kept <= size {
      forall w, rules, files, draw, dir, dir', log |
        && Sound(w, dir) && Challenged(w, rules, files, draw, dir, dir', log)
        && rules.Check() && rules.size == size && |log.entrants| == entrants
        && |Kept(w, rules.Decides(), dir'.sources, dir.state.members)| == kept
        ensures Verified(w, rules, dir')
      {
        ChallengeVerifies(w, rules, files, draw, dir, dir', log);
      }
    } else {
      ChallengeMisorders(size, kept);
    }
  }
}
