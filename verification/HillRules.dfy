/** What the rules of a hill mean, spelled out (src/hill.rs): who stays, in which
    order entrants join, how a match is played and with which seed. */
module HillRules {
  import opened Redcode
  import opened Configs
  import opened Match
  import opened Cells
  import opened Ranking
  import opened Hills

  // ---- order ----

  /** `x` is not below `y`: it has more points, or as many and did not arrive
      earlier, where the newer go first, or later, where not. */
  predicate Precedes(rules: Rules, matches: map<Key, Score>, all: seq<Member>, x: Member, y: Member) {
    var s, t := Total(rules.points, matches, x.id, all).score, Total(rules.points, matches, y.id, all).score;
    s > t || (s == t && if rules.newer then x.arrived >= y.arrived else x.arrived <= y.arrived)
  }

  /** Trimming keeps the first of the table: nobody dropped was before somebody
      kept, and nobody is dropped while there is room. */
  lemma TrimKeepsBest(rules: Rules, matches: map<Key, Score>, ms: seq<Member>, x: Member, y: Member)
    requires x in Settled(rules, matches, ms) && y in ms && y !in Settled(rules, matches, ms)
    ensures Precedes(rules, matches, ms, x, y)
    ensures rules.size > 0 && |Settled(rules, matches, ms)| == rules.size < |ms|
  {
    hide Total, Ranked;
    var r := Ranked(rules.points, rules.newer, matches, ms);
    RankedReads(rules.points, rules.newer, matches, ms);
    RankedKeeps(rules.points, rules.newer, matches, ms);
    assert y in multiset(ms) && y in r;
    var j :| 0 <= j < |r| && r[j] == y;
    assert rules.size > 0 && |r| > rules.size;
    FrontIn(r, rules.size);
    var i :| 0 <= i < rules.size && r[..rules.size][i] == x;
    assert r[i] == x;
  }

  lemma FrontIn(ms: seq<Member>, n: nat)
    requires n <= |ms|
    ensures forall j: nat :: j < n ==> ms[j] in ms[..n]
  {
    forall j: nat | j < n
      ensures ms[j] in ms[..n]
    {
      assert ms[..n][j] == ms[j];
    }
  }

  /** On a hill of one, of two members with as many points against each other the
      one that arrived later stays where the newer go first, and the other one
      where not. */
  lemma TieOnOnePlace(rules: Rules, matches: map<Key, Score>, x: Member, y: Member)
    requires rules.size == 1 && x.arrived < y.arrived
    requires Total(rules.points, matches, x.id, [x, y]).score == Total(rules.points, matches, y.id, [x, y]).score
    ensures Settled(rules, matches, [x, y]) == [if rules.newer then y else x]
  {
    hide Total;
    var p, newer, all := rules.points, rules.newer, [x, y];
    assert all[1..] == [y] && [y][1..] == [];
    assert Sort(p, newer, matches, all, [y]) == [y];
    assert [y][0] == y && Insert(p, newer, matches, all, x, [y]) == if newer then [y, x] else [x, y];
  }

  /** So a challenger that ties the only member takes its place, or does not. */
  lemma ChallengerTies(rules: Rules, matches: map<Key, Score>, present: Member, entrant: Member, next: nat)
    requires rules.size == 1 && present.arrived < next
    requires var e := entrant.(arrived := next);
             Total(rules.points, matches, present.id, [present, e]).score
             == Total(rules.points, matches, e.id, [present, e]).score
    ensures Joined(rules, matches, [present], [entrant], next)
            == [if rules.newer then entrant.(arrived := next) else present]
  {
    hide Total, Settled;
    TieOnOnePlace(rules, matches, present, entrant.(arrived := next));
    assert [present] + [entrant.(arrived := next)] == [present, entrant.(arrived := next)];
    assert [entrant][1..] == [];
  }

  lemma IdsTell(xs: seq<Member>, ys: seq<Member>)
    requires multiset(xs) == multiset(ys) && Different(xs) && IdsOf(xs) == IdsOf(ys)
    ensures xs == ys
  {
    assert |xs| == |IdsOf(xs)| == |ys|;
    forall i | 0 <= i < |xs|
      ensures xs[i] == ys[i]
    {
      assert IdsOf(xs)[i] == IdsOf(ys)[i];
      assert ys[i] in multiset(xs);
      var k :| 0 <= k < |xs| && xs[k] == ys[i];
    }
  }

  /** The members of a hill that passes its audit are in order. */
  lemma VerifiedInOrder(w: World, rules: Rules, dir: Dir)
    requires Verified(w, rules, dir)
    ensures var ms := dir.state.members; Ordered(rules.points, rules.newer, dir.cache.matches, ms, ms)
  {
    hide Ordered, Ranked, ResultsGood, SourceGood;
    var ms := dir.state.members;
    var r := Ranked(rules.points, rules.newer, dir.cache.matches, ms);
    RankedKeeps(rules.points, rules.newer, dir.cache.matches, ms);
    RankedReads(rules.points, rules.newer, dir.cache.matches, ms);
    IdsTell(ms, r);
  }

  // ---- joining ----

  /** Entrants join in the order given, numbered from `next`, one trim after each. */
  lemma {:induction false} JoinedLast(rules: Rules, matches: map<Key, Score>, ms: seq<Member>, entrants: seq<Member>,
                                      next: nat)
    ensures entrants == [] ==> Joined(rules, matches, ms, entrants, next) == ms
    ensures entrants != [] ==>
              var n := |entrants| - 1;
              Joined(rules, matches, ms, entrants, next)
              == Settled(rules, matches,
                         Joined(rules, matches, ms, entrants[..n], next) + [entrants[n].(arrived := next + n)])
    decreases |entrants|
  {
    hide Settled;
    if entrants != [] {
      var n := |entrants| - 1;
      var now := Settled(rules, matches, ms + [entrants[0].(arrived := next)]);
      if n == 0 {
        assert entrants[1..] == [];
      } else {
        JoinedLast(rules, matches, now, entrants[1..], next + 1);
        assert entrants[1..][..n - 1] == entrants[..n][1..];
      }
    }
  }

  /** The members whose sources still assemble for both places stay members until
      then, in their order. */
  lemma {:induction false} KeptReads(w: World, f: Fingerprint, sources: map<Id, string>, ms: seq<Member>)
    ensures forall m :: m in Kept(w, f, sources, ms) <==> m in ms && EntryOf(w, f, sources, m.id).Some?
    ensures (forall m :: m in ms ==> EntryOf(w, f, sources, m.id).Some?) ==> Kept(w, f, sources, ms) == ms
  {
    hide EntryOf, Kept;
    if ms == [] {
      NobodyKept(w, f, sources);
    } else {
      var init, last := ms[..|ms| - 1], ms[|ms| - 1];
      KeptReads(w, f, sources, init);
      KeptNext(w, f, sources, init, last);
      LastIn(init, last);
      LastIn(Kept(w, f, sources, init), last);
      assert ms == init + [last];
    }
  }

  lemma NobodyKept(w: World, f: Fingerprint, sources: map<Id, string>)
    ensures Kept(w, f, sources, []) == []
  {
  }

  lemma KeptNext(w: World, f: Fingerprint, sources: map<Id, string>, init: seq<Member>, last: Member)
    ensures Kept(w, f, sources, init + [last])
            == if EntryOf(w, f, sources, last.id).Some? then Kept(w, f, sources, init) + [last]
               else Kept(w, f, sources, init)
  {
    hide EntryOf;
    assert (init + [last])[..|init|] == init;
  }

  lemma LastIn(init: seq<Member>, last: Member)
    ensures forall m :: m in init + [last] <==> m in init || m == last
  {
  }

  /** A hill opens with the results it has if they were played under the same
      parameters, number of rounds and placement, and with none otherwise. */
  lemma OpenedReads(rules: Rules, dir: Dir)
    ensures var c := Opened(rules, dir);
            var was := dir.cache.fingerprint;
            if was.params == rules.params && was.rounds == rules.rounds && was.placement == rules.placement
            then c == dir.cache
            else c.matches == map[] && c.seeds == map[]
  {
  }

  // ---- matches ----

  /** The configuration a contender is assembled under: that of a match of two,
      knowing whether it is the first of them. */
  function Conditions(f: Fingerprint, first: bool): Config {
    Config(f.params.coreSize, f.params.length, f.params.processes, f.params.cycles, f.params.distance, 2, f.rounds,
           first)
  }

  /** A source enters assembled for both places. */
  lemma EntryReads(w: World, f: Fingerprint, src: string)
    ensures var e, one, two := Entry(w, f, src), w.build(src, Conditions(f, true)), w.build(src, Conditions(f, false));
            && (e.Some? <==> one.Some? && two.Some?)
            && (e.Some? ==> e.value == Contender(one.value, two.value))
  {
  }

  /** A result that replays is that of the match of its two sources: the lower id
      assembled and loaded first, the higher one second, all rounds, placed with
      the seed of the pair, or the one drawn for it. */
  lemma ReplayReads(w: World, f: Fingerprint, sources: map<Id, string>, cache: Cache, k: Key)
    ensures Replays(w, f, sources, cache, k) <==>
              && k in cache.matches && Assembles(w, f, sources, k.0) && Assembles(w, f, sources, k.1)
              && (f.placement.Random? ==> k in cache.seeds)
              && var a, b := w.build(sources[k.0], Conditions(f, true)), w.build(sources[k.1], Conditions(f, false));
                 var seed := if f.placement.Random? then cache.seeds[k]
                             else w.seed(k.0, k.1, f.params.coreSize + 1 - 2 * f.params.distance);
                 cache.matches[k] == w.play(Conditions(f, true), a.value, b.value, f.rounds, seed)
  {
  }

  /** There is a source of this name, and it assembles for both places. */
  predicate Assembles(w: World, f: Fingerprint, sources: map<Id, string>, x: Id) {
    && x in sources && w.build(sources[x], Conditions(f, true)).Some?
    && w.build(sources[x], Conditions(f, false)).Some?
  }

  /** A match not played yet is given the seed of the pair, or of the number
      drawn and the pair. */
  lemma NewSeedReads(w: World, f: Fingerprint, draw: Option<nat>, k: Key)
    ensures var positions := f.params.coreSize + 1 - 2 * f.params.distance;
            NewSeed(w, f, draw, k)
            == if draw.Some? then w.drawnSeed(draw.value, k.0, k.1, positions) else w.seed(k.0, k.1, positions)
  {
  }

  // ---- the audit ----

  /** A table in order is the ranking of its members. */
  lemma OrderedIsRanked(rules: Rules, matches: map<Key, Score>, ms: seq<Member>)
    requires Ordered(rules.points, rules.newer, matches, ms, ms)
    ensures OrderRight(rules, matches, ms)
  {
    hide Total, Sort;
    var p, newer := rules.points, rules.newer;
    forall i, j | 0 <= i < j < |ms|
      ensures !Above(p, newer, matches, ms, ms[j], ms[i])
    {
    }
    SortedStays(p, newer, matches, ms, ms);
  }

  /** The pairs of members: the lower id first. */
  predicate OfMembers(ms: seq<Member>, k: Key) {
    exists i, j :: 0 <= i < j < |ms| && k == if ms[i].id < ms[j].id then (ms[i].id, ms[j].id) else (ms[j].id, ms[i].id)
  }

  lemma PairsRead(ms: seq<Member>, k: Key)
    ensures k in Pairs(ms) <==> OfMembers(ms, k)
  {
    hide Pairs;
    if k in Pairs(ms) {
      var i, j := PairsOnly(ms, k);
    }
    if OfMembers(ms, k) {
      var i, j :| 0 <= i < j < |ms| && k == if ms[i].id < ms[j].id then (ms[i].id, ms[j].id) else (ms[j].id, ms[i].id);
      PairsCover(ms, i, j);
    }
  }

  /** A directory passes the audit exactly if ids are different, every member has
      the source its id, name and author are of, which assembles for both places,
      there are no more members than places, the results were played under these
      rules, are exactly those of the pairs of members and replay, and the table
      is in order. */
  lemma VerifiedReads(w: World, rules: Rules, dir: Dir)
    ensures var f, ms, c := rules.Decides(), dir.state.members, dir.cache;
            Verified(w, rules, dir) <==>
              && (forall i, j :: 0 <= i < j < |ms| ==> ms[i].id != ms[j].id)
              && (forall m :: m in ms ==>
                    && Assembles(w, f, dir.sources, m.id)
                    && var src := dir.sources[m.id];
                       w.hash(src) == m.id && w.name(src) == m.name && w.author(src) == m.author)
              && (rules.size > 0 ==> |ms| <= rules.size)
              && c.fingerprint.params == rules.params && c.fingerprint.rounds == rules.rounds
              && c.fingerprint.placement == rules.placement
              && (forall k :: k in c.matches <==> OfMembers(ms, k))
              && (forall k :: k in c.matches ==> Replays(w, f, dir.sources, c, k))
              && Ordered(rules.points, rules.newer, c.matches, ms, ms)
  {
    hide Ordered, OfMembers, Replays, Pairs, OrderRight;
    var f, ms, c := rules.Decides(), dir.state.members, dir.cache;
    forall k
      ensures k in Pairs(ms) <==> OfMembers(ms, k)
      ensures Replays(w, f, dir.sources, c, k) ==> k in c.matches
    {
      PairsRead(ms, k);
      ReplayReads(w, f, dir.sources, c, k);
    }
    forall m | m in ms && m.id in dir.sources
      ensures Assembles(w, f, dir.sources, m.id) <==> Entry(w, f, dir.sources[m.id]).Some?
    {
      EntryReads(w, f, dir.sources[m.id]);
    }
    if Verified(w, rules, dir) {
      VerifiedInOrder(w, rules, dir);
    }
    if Ordered(rules.points, rules.newer, c.matches, ms, ms) {
      OrderedIsRanked(rules, c.matches, ms);
    }
  }

  // ---- who enters ----

  /** A submission nobody can enter with. */
  predicate Declined(w: World, f: Fingerprint, known: set<Id>, file: Submission) {
    || file.text.None? || w.build(file.text.value, Conditions(f, true)).None?
    || w.build(file.text.value, Conditions(f, false)).None? || w.hash(file.text.value) in known
  }

  /** Submission `n` is the one entrant `e` enters with. */
  predicate EntersWith(w: World, file: Submission, e: Member) {
    && file.text.Some?
    && var text := file.text.value;
       e == Member(w.hash(text), w.name(text), w.author(text), file.file, 0)
  }

  /** Entrants come in the order of the submissions `ns` they enter with; every
      other submission is unreadable, does not assemble, or is a text known by
      then. */
  predicate InTheirOrder(w: World, f: Fingerprint, files: seq<Submission>, known: set<Id>, entrants: seq<Member>,
                         ns: seq<nat>) {
    && |ns| == |entrants| && (forall i, j :: 0 <= i < j < |ns| ==> ns[i] < ns[j])
    && (forall i :: 0 <= i < |ns| ==>
          && ns[i] < |files| && EntersWith(w, files[ns[i]], entrants[i])
          && !Declined(w, f, known + Ids(entrants[..i]), files[ns[i]]))
    && forall n: nat :: n < |files| && n !in ns ==> Declined(w, f, known + Ids(entrants), files[n])
  }

  lemma {:induction false} AdmissionReads(w: World, f: Fingerprint, files: seq<Submission>, members: seq<Member>,
                                          before: map<Id, string>) returns (ns: seq<nat>)
    ensures InTheirOrder(w, f, files, Ids(members), Admission(w, f, files, members, before).0, ns)
  {
    hide Declined, EntersWith, InTheirOrder, Ids, Entry;
    if files == [] {
      ns := [];
      NobodyEnters(w, f, Ids(members));
    } else {
      var init, file := files[..|files| - 1], files[|files| - 1];
      ns := AdmissionReads(w, f, init, members, before);
      var entrants := Admission(w, f, init, members, before).0;
      DeclinedIsOut(w, f, Ids(members) + Ids(entrants), file);
      assert files == init + [file];
      if Enters(w, f, Ids(members) + Ids(entrants), file) {
        OneEnters(w, f, init, file, Ids(members), entrants, Newcomer(w, file.file, file.text.value), ns);
        ns := ns + [|init|];
      } else {
        OneDeclined(w, f, init, file, Ids(members), entrants, ns);
      }
    }
  }

  lemma NobodyEnters(w: World, f: Fingerprint, known: set<Id>)
    ensures InTheirOrder(w, f, [], known, [], [])
  {
  }

  lemma OneEnters(w: World, f: Fingerprint, init: seq<Submission>, file: Submission, known: set<Id>,
                  entrants: seq<Member>, e: Member, ns: seq<nat>)
    requires InTheirOrder(w, f, init, known, entrants, ns)
    requires EntersWith(w, file, e) && !Declined(w, f, known + Ids(entrants), file)
    ensures InTheirOrder(w, f, init + [file], known, entrants + [e], ns + [|init|])
  {
    hide Declined, EntersWith, Ids;
    var all, files, more := entrants + [e], init + [file], ns + [|init|];
    assert all[..|entrants|] == entrants;
    IdsGrow(entrants, e);
    forall i | 0 <= i < |ns|
      ensures all[..i] == entrants[..i] && files[more[i]] == init[ns[i]]
    {
    }
    forall n: nat | n < |files| && n !in more
      ensures Declined(w, f, known + Ids(all), files[n])
    {
      assert more[|ns|] == |init|;
      assert forall i :: 0 <= i < |ns| ==> more[i] == ns[i];
      DeclinedOn(w, f, known + Ids(entrants), known + Ids(all), files[n]);
    }
  }

  lemma IdsGrow(ms: seq<Member>, m: Member)
    ensures Ids(ms) <= Ids(ms + [m])
  {
  }

  lemma OneDeclined(w: World, f: Fingerprint, init: seq<Submission>, file: Submission, known: set<Id>,
                    entrants: seq<Member>, ns: seq<nat>)
    requires InTheirOrder(w, f, init, known, entrants, ns) && Declined(w, f, known + Ids(entrants), file)
    ensures InTheirOrder(w, f, init + [file], known, entrants, ns)
  {
    hide Declined, EntersWith;
  }

  lemma DeclinedOn(w: World, f: Fingerprint, known: set<Id>, more: set<Id>, file: Submission)
    requires Declined(w, f, known, file) && known <= more
    ensures Declined(w, f, more, file)
  {
  }

  lemma DeclinedIsOut(w: World, f: Fingerprint, known: set<Id>, file: Submission)
    ensures Enters(w, f, known, file) <==> !Declined(w, f, known, file)
    ensures file.text.Some? ==> EntersWith(w, file, Newcomer(w, file.file, file.text.value))
  {
    if file.text.Some? {
      EntryReads(w, f, file.text.value);
    }
  }
}
