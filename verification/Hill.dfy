/** The hill as a state machine (src/hill.rs): a directory of members, results
    and sources that challenges move on, and the audit that checks it.
    Assembling, hashing and playing a match are deterministic functions the
    world provides; a source's name and author are read before pass 1 and so do
    not depend on the rules (src/asm.rs:1072-1104). */
module Hills {
  import opened Redcode
  import opened Configs
  import opened Match
  import opened Engines
  import opened Ranking

  // ---- the world ----

  datatype World = World(
    hash: string -> Id,
    name: string -> string,
    author: string -> string,
    build: (string, Config) -> Option<Compiled>,
    play: (Config, Compiled, Compiled, nat, nat) -> Score,
    seed: (Id, Id, int) -> nat,
    drawnSeed: (nat, Id, Id, int) -> nat)

  datatype Placement = Hashed | Random

  datatype Params = Params(coreSize: nat, cycles: nat, processes: nat, length: nat, distance: nat)

  /** What decides a match; distinct ones are taken to have distinct hashes. */
  datatype Fingerprint = Fingerprint(params: Params, rounds: nat, placement: Placement)
  {
    function First(): Config {
      Config(params.coreSize, params.length, params.processes, params.cycles, params.distance, 2, rounds, true)
    }

    function Second(): Config {
      First().(firstWarrior := false)
    }

    function Positions(): int {
      params.coreSize + 1 - 2 * params.distance
    }
  }

  /** `size` 0 keeps everyone. */
  datatype Rules = Rules(size: nat, rounds: nat, newer: bool, placement: Placement, params: Params, points: Points)
  {
    function Decides(): Fingerprint {
      Fingerprint(params, rounds, placement)
    }

    predicate Check() {
      rounds >= 1 && Decides().First().Check(2) == Accepted
    }
  }

  // ---- the directory ----

  datatype State = State(next: nat, members: seq<Member>)

  datatype Cache = Cache(fingerprint: Fingerprint, matches: map<Key, Score>, seeds: map<Key, nat>)

  datatype Dir = Dir(state: State, cache: Cache, sources: map<Id, string>)

  function Init(rules: Rules): Dir {
    Dir(State(0, []), Cache(rules.Decides(), map[], map[]), map[])
  }

  /** The results a hill opens with: none when they were played under other
      rules. */
  function Opened(rules: Rules, dir: Dir): Cache {
    if dir.cache.fingerprint == rules.Decides() then dir.cache else Cache(rules.Decides(), map[], map[])
  }

  // ---- a member's source, a match's score ----

  datatype Contender = Contender(first: Compiled, second: Compiled)

  /** A source assembled for both places; none when either refuses it. */
  function Entry(w: World, f: Fingerprint, src: string): Option<Contender> {
    var one, two := w.build(src, f.First()), w.build(src, f.Second());
    if one.None? || two.None? then None
    else Some(Contender(one.value, two.value))
  }

  function EntryOf(w: World, f: Fingerprint, sources: map<Id, string>, id: Id): Option<Contender> {
    if id in sources then Entry(w, f, sources[id]) else None
  }

  /** The score of the match `k` placed with `seed`, played from the sources. */
  function ScoreOf(w: World, f: Fingerprint, sources: map<Id, string>, k: Key, seed: nat): Option<Score> {
    var a, b := EntryOf(w, f, sources, k.0), EntryOf(w, f, sources, k.1);
    if a.None? || b.None? then None else Some(w.play(f.First(), a.value.first, b.value.second, f.rounds, seed))
  }

  /** The seed a stored result is replayed with. */
  function StoredSeed(w: World, f: Fingerprint, seeds: map<Key, nat>, k: Key): Option<nat> {
    if f.placement.Hashed? then Some(w.seed(k.0, k.1, f.Positions()))
    else if k in seeds then Some(seeds[k])
    else None
  }

  /** The seed a missing match is played with. */
  function NewSeed(w: World, f: Fingerprint, draw: Option<nat>, k: Key): nat {
    match draw
    case Some(d) => w.drawnSeed(d, k.0, k.1, f.Positions())
    case None => w.seed(k.0, k.1, f.Positions())
  }

  predicate Replays(w: World, f: Fingerprint, sources: map<Id, string>, cache: Cache, k: Key) {
    var s := StoredSeed(w, f, cache.seeds, k);
    && k in cache.matches && s.Some?
    && ScoreOf(w, f, sources, k, s.value) == Some(cache.matches[k])
  }

  function Ids(ms: seq<Member>): set<Id> {
    set m | m in ms :: m.id
  }

  // ---- pairs ----

  function Row(x: Id, ms: seq<Member>): seq<Key> {
    seq(|ms|, j requires 0 <= j < |ms| => Pairing(x, ms[j].id))
  }

  /** Every pair of members, in the order the loops meet them. */
  function Pairs(ms: seq<Member>): seq<Key> {
    if ms == [] then [] else Row(ms[0].id, ms[1..]) + Pairs(ms[1..])
  }

  lemma {:induction false} PairsCover(ms: seq<Member>, i: nat, j: nat)
    requires i < j < |ms|
    ensures Pairing(ms[i].id, ms[j].id) in Pairs(ms)
  {
    if i == 0 {
      assert Row(ms[0].id, ms[1..])[j - 1] == Pairing(ms[0].id, ms[j].id);
    } else {
      PairsCover(ms[1..], i - 1, j - 1);
    }
  }

  lemma {:induction false} PairsOnly(ms: seq<Member>, k: Key) returns (i: nat, j: nat)
    requires k in Pairs(ms)
    ensures i < j < |ms| && k == Pairing(ms[i].id, ms[j].id)
  {
    var row := Row(ms[0].id, ms[1..]);
    if k in row {
      var n :| 0 <= n < |row| && row[n] == k;
      i, j := 0, n + 1;
    } else {
      i, j := PairsOnly(ms[1..], k);
      i, j := i + 1, j + 1;
    }
  }

  lemma CompleteIsPairs(matches: map<Key, Score>, ms: seq<Member>)
    ensures Complete(matches, ms) <==> forall k :: k in Pairs(ms) ==> k in matches
  {
    if Complete(matches, ms) {
      forall k | k in Pairs(ms)
        ensures k in matches
      {
        var i, j := PairsOnly(ms, k);
      }
    }
    if forall k :: k in Pairs(ms) ==> k in matches {
      forall i, j | 0 <= i < j < |ms|
        ensures Pairing(ms[i].id, ms[j].id) in matches
      {
        PairsCover(ms, i, j);
      }
    }
  }

  // ---- what a directory keeps, whatever rules come and go ----

  /** Members and arrivals are distinct, every source hashes to its id, and
      every cached result is one between members that replays under the rules
      it was played under. */
  ghost predicate Sound(w: World, dir: Dir) {
    && Different(dir.state.members) && ArrivedApart(dir.state.members)
    && (forall m :: m in dir.state.members ==> m.arrived < dir.state.next)
    && (forall m :: m in dir.state.members ==> Honest(w, dir.sources, m))
    && (forall k :: k in dir.cache.matches ==>
          && k.0 < k.1 && k.0 in Ids(dir.state.members) && k.1 in Ids(dir.state.members)
          && Replays(w, dir.cache.fingerprint, dir.sources, dir.cache, k))
  }

  /** A member's source is there, hashes to its id, and gives the name and the
      author it is listed under. */
  predicate Honest(w: World, sources: map<Id, string>, m: Member) {
    && m.id in sources && w.hash(sources[m.id]) == m.id
    && w.name(sources[m.id]) == m.name && w.author(sources[m.id]) == m.author
  }

  // ---- what the audit demands ----

  predicate SourceGood(w: World, f: Fingerprint, sources: map<Id, string>, m: Member) {
    Honest(w, sources, m) && Entry(w, f, sources[m.id]).Some?
  }

  function IdsOf(ms: seq<Member>): seq<Id> {
    seq(|ms|, i requires 0 <= i < |ms| => ms[i].id)
  }

  /** The order of the table is the order the rules give. */
  predicate OrderRight(rules: Rules, matches: map<Key, Score>, ms: seq<Member>) {
    IdsOf(Ranked(rules.points, rules.newer, matches, ms)) == IdsOf(ms)
  }

  ghost predicate ResultsGood(w: World, f: Fingerprint, sources: map<Id, string>, cache: Cache, ms: seq<Member>) {
    && (forall k :: k in Pairs(ms) ==> Replays(w, f, sources, cache, k))
    && (forall k :: k in cache.matches ==> k in Pairs(ms))
  }

  /** A directory an honest run of the rules leaves. */
  ghost predicate Verified(w: World, rules: Rules, dir: Dir) {
    var f, ms := rules.Decides(), dir.state.members;
    && Different(ms)
    && (forall m :: m in ms ==> SourceGood(w, f, dir.sources, m))
    && (rules.size > 0 ==> |ms| <= rules.size)
    && dir.cache.fingerprint == f
    && ResultsGood(w, f, dir.sources, dir.cache, ms)
    && OrderRight(rules, dir.cache.matches, ms)
  }

  // ---- what a challenge does ----

  datatype Submission = Submission(file: string, text: Option<string>)

  function Trimmed(size: nat, ms: seq<Member>): seq<Member> {
    if size == 0 || |ms| <= size then ms else ms[..size]
  }

  function Settled(rules: Rules, matches: map<Key, Score>, ms: seq<Member>): seq<Member> {
    Trimmed(rules.size, Ranked(rules.points, rules.newer, matches, ms))
  }

  /** Challengers join one at a time: rank, and the lowest falls off. */
  function Joined(rules: Rules, matches: map<Key, Score>, ms: seq<Member>, entrants: seq<Member>,
                  next: nat): seq<Member>
    decreases |entrants|
  {
    if entrants == [] then ms
    else Joined(rules, matches, Settled(rules, matches, ms + [entrants[0].(arrived := next)]), entrants[1..], next + 1)
  }

  /** The members whose sources still assemble. */
  function Kept(w: World, f: Fingerprint, sources: map<Id, string>, ms: seq<Member>): seq<Member> {
    if ms == [] then []
    else
      var init, last := ms[..|ms| - 1], ms[|ms| - 1];
      Kept(w, f, sources, init) + if EntryOf(w, f, sources, last.id).Some? then [last] else []
  }

  /** The member a text enters as. */
  function Newcomer(w: World, file: string, text: string): Member {
    Member(w.hash(text), w.name(text), w.author(text), file, 0)
  }

  /** Whether a submission is read, assembles for both places, and is unknown. */
  predicate Enters(w: World, f: Fingerprint, known: set<Id>, file: Submission) {
    file.text.Some? && Entry(w, f, file.text.value).Some? && w.hash(file.text.value) !in known
  }

  /** The texts taken in the order given: the entrants, and the sources as they
      are then. */
  function Admission(w: World, f: Fingerprint, files: seq<Submission>, members: seq<Member>, before: map<Id, string>)
    : (seq<Member>, map<Id, string>)
  {
    if files == [] then ([], before)
    else
      var (entrants, sources) := Admission(w, f, files[..|files| - 1], members, before);
      var file := files[|files| - 1];
      if Enters(w, f, Ids(members) + Ids(entrants), file) then
        var text := file.text.value;
        (entrants + [Newcomer(w, file.file, text)], sources[w.hash(text) := text])
      else (entrants, sources)
  }

  /** Who enters from `files`, in that order: every text that assembles and is
      not known yet, once, its source now in the directory. */
  ghost predicate Admitted(w: World, f: Fingerprint, files: seq<Submission>, members: seq<Member>,
                           before: map<Id, string>, entrants: seq<Member>, sources: map<Id, string>) {
    && (entrants, sources) == Admission(w, f, files, members, before)
    && Different(entrants)
    && (forall e :: e in entrants ==>
          e.id !in Ids(members) && SourceGood(w, f, sources, e)
          && exists n :: 0 <= n < |files| && files[n].text == Some(sources[e.id]) && files[n].file == e.file)
    && (forall n :: 0 <= n < |files| && files[n].text.Some? && Entry(w, f, files[n].text.value).Some? ==>
          w.hash(files[n].text.value) in Ids(members) + Ids(entrants))
    && (forall m :: m in members && m.id in before ==> m.id in sources && sources[m.id] == before[m.id])
  }

  /** Every missing match of `ms` is played, none of the others again. */
  ghost predicate PlayedOut(w: World, f: Fingerprint, draw: Option<nat>, sources: map<Id, string>, ms: seq<Member>,
                            before: Cache, after: Cache) {
    && (forall k :: k in before.matches ==> k in after.matches && after.matches[k] == before.matches[k]
                                            && StoredSeed(w, f, after.seeds, k) == StoredSeed(w, f, before.seeds, k))
    && (forall k :: k in Pairs(ms) ==> k in after.matches)
    && (forall k :: k in after.matches && k !in before.matches ==>
          && k in Pairs(ms) && StoredSeed(w, f, after.seeds, k) == Some(NewSeed(w, f, draw, k))
          && Replays(w, f, sources, after, k))
  }

  /** What is behind a challenge's outcome: who entered, and the cache once the
      missing matches were played. */
  datatype Log = Log(entrants: seq<Member>, played: Cache)

  ghost predicate Challenged(w: World, rules: Rules, files: seq<Submission>, draw: Option<nat>, dir: Dir, dir': Dir,
                             log: Log) {
    var f := rules.Decides();
    var kept := Kept(w, f, dir'.sources, dir.state.members);
    var joined := Joined(rules, log.played.matches, kept, log.entrants, dir.state.next);
    var ms := Settled(rules, log.played.matches, joined);
    && draw.Some? == rules.placement.Random?
    && Admitted(w, f, files, dir.state.members, dir.sources, log.entrants, dir'.sources)
    && PlayedOut(w, f, draw, dir'.sources, kept + log.entrants, Opened(rules, dir), log.played)
    && dir'.state == State(dir.state.next + |log.entrants|, ms)
    && dir'.cache == Retained(f, log.played, Ids(ms))
  }

  /** Results and seeds of pairs of members only. */
  function Retained(f: Fingerprint, cache: Cache, ids: set<Id>): Cache {
    var matches := map k | k in cache.matches && k.0 in ids && k.1 in ids :: cache.matches[k];
    Cache(f, matches, map k | k in cache.seeds && k in matches :: cache.seeds[k])
  }

  // ---- members through a challenge ----

  predicate Tidy(ms: seq<Member>, next: nat) {
    Different(ms) && ArrivedApart(ms) && forall m :: m in ms ==> m.arrived < next
  }

  lemma {:induction false} KeptIsTidy(w: World, f: Fingerprint, sources: map<Id, string>, ms: seq<Member>, next: nat)
    requires Tidy(ms, next)
    ensures Tidy(Kept(w, f, sources, ms), next)
    ensures forall m :: m in Kept(w, f, sources, ms) <==> m in ms && EntryOf(w, f, sources, m.id).Some?
    ensures |Kept(w, f, sources, ms)| <= |ms|
  {
    hide EntryOf, Tidy;
    if ms == [] {
      TakeIsTidy(ms, 0, next);
    } else {
      var init, last := ms[..|ms| - 1], ms[|ms| - 1];
      TakeIsTidy(ms, |ms| - 1, next);
      KeptIsTidy(w, f, sources, init, next);
      assert ms == init + [last];
      LastIsTidy(init, last, Kept(w, f, sources, init), next);
      assert Kept(w, f, sources, init) + [] == Kept(w, f, sources, init);
    }
  }

  lemma LastIsTidy(init: seq<Member>, last: Member, kept: seq<Member>, next: nat)
    requires Tidy(init + [last], next) && Tidy(kept, next) && forall m :: m in kept ==> m in init
    ensures Tidy(kept + [last], next)
  {
    forall i | 0 <= i < |kept|
      ensures kept[i].id != last.id && kept[i].arrived != last.arrived
    {
      assert kept[i] in init;
      var j :| 0 <= j < |init| && init[j] == kept[i];
      assert (init + [last])[j] == kept[i] && (init + [last])[|init|] == last;
    }
    assert last in init + [last];
  }

  lemma SettledIsTidy(rules: Rules, matches: map<Key, Score>, ms: seq<Member>, next: nat)
    requires Tidy(ms, next)
    ensures var r := Settled(rules, matches, ms);
            && Tidy(r, next) && (forall m :: m in r ==> m in ms)
            && (rules.size > 0 ==> |r| <= rules.size) && |r| <= |ms|
  {
    hide Ranked;
    var s := Ranked(rules.points, rules.newer, matches, ms);
    RankedKeeps(rules.points, rules.newer, matches, ms);
    SameMembers(ms, s, next);
    TakeIsTidy(s, if rules.size == 0 || |s| <= rules.size then |s| else rules.size, next);
    assert s[..|s|] == s;
  }

  lemma SameMembers(ms: seq<Member>, s: seq<Member>, next: nat)
    requires Tidy(ms, next) && multiset(s) == multiset(ms)
    ensures Tidy(s, next) && forall m :: m in s ==> m in ms
  {
    PermutationKeeps(ms, s);
    forall m | m in s
      ensures m in ms
    {
      assert m in multiset(s);
    }
  }

  lemma TakeIsTidy(ms: seq<Member>, n: nat, next: nat)
    requires Tidy(ms, next) && n <= |ms|
    ensures Tidy(ms[..n], next) && forall m :: m in ms[..n] ==> m in ms
  {
  }

  lemma JoinIsTidy(ms: seq<Member>, e: Member, next: nat)
    requires Tidy(ms, next) && e.id !in Ids(ms)
    ensures Tidy(ms + [e.(arrived := next)], next + 1)
  {
    var m := e.(arrived := next);
    forall i | 0 <= i < |ms|
      ensures ms[i].id != m.id && ms[i].arrived != m.arrived
    {
      assert ms[i] in ms && ms[i].id in Ids(ms);
    }
  }

  /** `m` is one of `ms`, or an entrant with its arrival number. */
  ghost predicate ComesFrom(m: Member, ms: seq<Member>, entrants: seq<Member>) {
    m in ms || exists e :: e in entrants && m == e.(arrived := m.arrived)
  }

  lemma {:induction false} JoinedIsTidy(rules: Rules, matches: map<Key, Score>, ms: seq<Member>, entrants: seq<Member>,
                                        next: nat)
    requires Tidy(ms, next) && Different(entrants) && forall e :: e in entrants ==> e.id !in Ids(ms)
    ensures var r := Joined(rules, matches, ms, entrants, next);
            && Tidy(r, next + |entrants|)
            && (forall m :: m in r ==> ComesFrom(m, ms, entrants))
            && (entrants != [] && rules.size > 0 ==> |r| <= rules.size)
    decreases |entrants|
  {
    hide Settled, Tidy;
    if entrants != [] {
      var e := entrants[0];
      var all := ms + [e.(arrived := next)];
      JoinIsTidy(ms, e, next);
      SettledIsTidy(rules, matches, all, next + 1);
      var s := Settled(rules, matches, all);
      forall x | x in entrants[1..]
        ensures x.id !in Ids(s)
      {
        var k :| 1 <= k < |entrants| && entrants[k] == x;
        assert forall m :: m in s ==> m.id != x.id;
      }
      JoinedIsTidy(rules, matches, s, entrants[1..], next + 1);
      forall m | m in Joined(rules, matches, ms, entrants, next)
        ensures ComesFrom(m, ms, entrants)
      {
        assert ComesFrom(m, s, entrants[1..]);
        if m in s && m !in ms {
          assert m == e.(arrived := m.arrived);
        }
      }
      if entrants[1..] == [] {
        assert Joined(rules, matches, ms, entrants, next) == s;
      }
    }
  }

  /** The members a challenge leaves: tidy, each kept or just entered, no more
      than the hill holds. */
  lemma MembersAfter(w: World, rules: Rules, files: seq<Submission>, draw: Option<nat>, dir: Dir, dir': Dir, log: Log)
    requires Sound(w, dir) && Challenged(w, rules, files, draw, dir, dir', log)
    ensures var kept := Kept(w, rules.Decides(), dir'.sources, dir.state.members);
            && Tidy(dir'.state.members, dir'.state.next)
            && (forall m :: m in dir'.state.members ==> ComesFrom(m, kept, log.entrants))
            && (rules.size > 0 ==> |dir'.state.members| <= rules.size)
  {
    hide Replays, PlayedOut, Settled, Joined, SourceGood, Retained, Kept, Entry;
    var f := rules.Decides();
    var ms := dir.state.members;
    KeptIsTidy(w, f, dir'.sources, ms, dir.state.next);
    var kept := Kept(w, f, dir'.sources, ms);
    forall e | e in log.entrants
      ensures e.id !in Ids(kept)
    {
      assert Ids(kept) <= Ids(ms);
    }
    JoinedIsTidy(rules, log.played.matches, kept, log.entrants, dir.state.next);
    SettledIsTidy(rules, log.played.matches, Joined(rules, log.played.matches, kept, log.entrants, dir.state.next),
        dir'.state.next);
  }

  // ---- results through a challenge ----

  lemma PairsByIds(ms: seq<Member>, x: Id, y: Id)
    requires x in Ids(ms) && y in Ids(ms) && x != y
    ensures Pairing(x, y) in Pairs(ms)
  {
    var m :| m in ms && m.id == x;
    var n :| n in ms && n.id == y;
    var i :| 0 <= i < |ms| && ms[i] == m;
    var j :| 0 <= j < |ms| && ms[j] == n;
    PairsCover(ms, if i < j then i else j, if i < j then j else i);
  }

  /** A pair of different members is in order and among the ids. */
  lemma PairsAreOrdered(ms: seq<Member>, k: Key)
    requires Different(ms) && k in Pairs(ms)
    ensures k.0 < k.1 && k.0 in Ids(ms) && k.1 in Ids(ms)
  {
    var i, j := PairsOnly(ms, k);
    assert ms[i] in ms && ms[j] in ms;
  }

  /** After the missing matches every cached result replays. */
  lemma PlayedReplays(w: World, rules: Rules, files: seq<Submission>, draw: Option<nat>, dir: Dir, dir': Dir, log: Log,
                      k: Key)
    requires Sound(w, dir) && Challenged(w, rules, files, draw, dir, dir', log) && k in log.played.matches
    ensures Replays(w, rules.Decides(), dir'.sources, log.played, k)
  {
    hide Settled, Joined, Kept, Pairs, Retained, Entry, Different, ArrivedApart, SourceGood;
    var cached := Opened(rules, dir);
    if k in cached.matches {
      var ms := dir.state.members;
      assert Replays(w, rules.Decides(), dir.sources, dir.cache, k);
      assert k.0 in Ids(ms) && k.1 in Ids(ms);
      forall x | x in Ids(ms)
        ensures x in dir.sources && x in dir'.sources && dir'.sources[x] == dir.sources[x]
      {
        var m :| m in ms && m.id == x;
        assert Honest(w, dir.sources, m);
      }
    }
  }

  lemma RetainedReplays(w: World, f: Fingerprint, sources: map<Id, string>, played: Cache, ids: set<Id>, k: Key)
    requires k in Retained(f, played, ids).matches && Replays(w, f, sources, played, k)
    ensures Replays(w, f, sources, Retained(f, played, ids), k)
  {
  }

  /** Ids the members after a challenge may have. */
  lemma IdsAfter(kept: seq<Member>, entrants: seq<Member>, ms: seq<Member>)
    requires forall m :: m in ms ==> ComesFrom(m, kept, entrants)
    ensures Ids(ms) <= Ids(kept + entrants)
  {
    forall x | x in Ids(ms)
      ensures x in Ids(kept + entrants)
    {
      var m :| m in ms && m.id == x;
      if m in kept {
        assert m in kept + entrants;
      } else {
        var e :| e in entrants && m == e.(arrived := m.arrived);
        assert e in kept + entrants;
      }
    }
  }

  /** The results saved are exactly those of the pairs of members, and every
      one of them replays. */
  lemma ResultsAfter(w: World, rules: Rules, files: seq<Submission>, draw: Option<nat>, dir: Dir, dir': Dir, log: Log)
    requires Sound(w, dir) && Challenged(w, rules, files, draw, dir, dir', log)
    ensures ResultsGood(w, rules.Decides(), dir'.sources, dir'.cache, dir'.state.members)
    ensures forall k :: k in dir'.cache.matches ==>
              k.0 < k.1 && k.0 in Ids(dir'.state.members) && k.1 in Ids(dir'.state.members)
    ensures forall k :: k in dir'.cache.matches ==>
              k in log.played.matches && dir'.cache.matches[k] == log.played.matches[k]
  {
    hide Settled, Joined, Replays, Kept, Pairs, Different, ArrivedApart, SourceGood, Opened, Sound, Admitted;
    hide ComesFrom, StoredSeed;
    var f := rules.Decides();
    var ms := dir'.state.members;
    MembersAfter(w, rules, files, draw, dir, dir', log);
    var kept := Kept(w, f, dir'.sources, dir.state.members);
    IdsAfter(kept, log.entrants, ms);
    forall k | k in Pairs(ms)
      ensures Replays(w, f, dir'.sources, dir'.cache, k) && k.0 < k.1 && k in dir'.cache.matches
    {
      PairsAreOrdered(ms, k);
      PairsByIds(kept + log.entrants, k.0, k.1);
      PlayedReplays(w, rules, files, draw, dir, dir', log, k);
      RetainedReplays(w, f, dir'.sources, log.played, Ids(ms), k);
    }
    forall k | k in dir'.cache.matches
      ensures k in Pairs(ms) && k.0 < k.1
    {
      PlayedInOrder(w, rules, files, draw, dir, dir', log, k);
      PairsByIds(ms, k.0, k.1);
    }
  }

  lemma PlayedInOrder(w: World, rules: Rules, files: seq<Submission>, draw: Option<nat>, dir: Dir, dir': Dir, log: Log,
                      k: Key)
    requires Sound(w, dir) && Challenged(w, rules, files, draw, dir, dir', log) && k in log.played.matches
    ensures k.0 < k.1
  {
    hide Settled, Joined, Replays, Retained, SourceGood, StoredSeed, Admitted;
    var cached := Opened(rules, dir);
    if k !in cached.matches {
      assert k in Pairs(Kept(w, rules.Decides(), dir'.sources, dir.state.members) + log.entrants);
      EveryoneDiffers(w, rules, files, draw, dir, dir', log);
      PairsAreOrdered(Kept(w, rules.Decides(), dir'.sources, dir.state.members) + log.entrants, k);
    }
  }

  lemma EveryoneDiffers(w: World, rules: Rules, files: seq<Submission>, draw: Option<nat>, dir: Dir, dir': Dir,
                        log: Log)
    requires Sound(w, dir) && Challenged(w, rules, files, draw, dir, dir', log)
    ensures Different(Kept(w, rules.Decides(), dir'.sources, dir.state.members) + log.entrants)
  {
    hide Settled, Joined, Replays, Retained, SourceGood, StoredSeed, Kept, PlayedOut;
    var f, ms := rules.Decides(), dir.state.members;
    KeptIsTidy(w, f, dir'.sources, ms, dir.state.next);
    var kept := Kept(w, f, dir'.sources, ms);
    forall i, j | 0 <= i < |kept| && 0 <= j < |log.entrants|
      ensures kept[i].id != log.entrants[j].id
    {
      assert kept[i] in ms && log.entrants[j] in log.entrants;
    }
  }

  // ---- the theorems ----

  /** Whatever rules the hill had before, a challenge leaves a sound directory. */
  lemma ChallengeKeepsSound(w: World, rules: Rules, files: seq<Submission>, draw: Option<nat>, dir: Dir, dir': Dir,
                            log: Log)
    requires Sound(w, dir) && Challenged(w, rules, files, draw, dir, dir', log)
    ensures Sound(w, dir')
  {
    hide Settled, Joined, Replays, Kept, Pairs, StoredSeed, PlayedOut;
    MembersAfter(w, rules, files, draw, dir, dir', log);
    ResultsAfter(w, rules, files, draw, dir, dir', log);
    forall m | m in dir'.state.members
      ensures Honest(w, dir'.sources, m)
    {
      SourceAfter(w, rules, files, draw, dir, dir', log, m);
    }
  }

  /** A member's source is honest and assembles, and a member that just entered
      is listed under its current name. */
  lemma SourceAfter(w: World, rules: Rules, files: seq<Submission>, draw: Option<nat>, dir: Dir, dir': Dir, log: Log,
                    m: Member)
    requires Sound(w, dir) && Challenged(w, rules, files, draw, dir, dir', log) && m in dir'.state.members
    ensures Honest(w, dir'.sources, m) && Entry(w, rules.Decides(), dir'.sources[m.id]).Some?
  {
    hide Settled, Joined, Replays, Kept, Pairs, Retained, StoredSeed, PlayedOut, Entry;
    MembersAfter(w, rules, files, draw, dir, dir', log);
    var f := rules.Decides();
    KeptIsTidy(w, f, dir'.sources, dir.state.members, dir.state.next);
    var kept := Kept(w, f, dir'.sources, dir.state.members);
    assert ComesFrom(m, kept, log.entrants);
    if m in kept {
      assert m in dir.state.members;
      assert Honest(w, dir.sources, m);
    } else {
      var e :| e in log.entrants && m == e.(arrived := m.arrived);
      assert SourceGood(w, f, dir'.sources, e);
    }
  }

  /** The guard of the final trim: it drops nobody, or leaves no order to get
      wrong. */
  predicate TrimHarmless(rules: Rules, kept: nat, entrants: nat) {
    entrants > 0 || rules.size <= 1 || kept <= rules.size
  }

  lemma OrderAfter(w: World, rules: Rules, files: seq<Submission>, draw: Option<nat>, dir: Dir, dir': Dir, log: Log)
    requires Sound(w, dir) && Challenged(w, rules, files, draw, dir, dir', log)
    requires TrimHarmless(rules, |Kept(w, rules.Decides(), dir'.sources, dir.state.members)|, |log.entrants|)
    ensures OrderRight(rules, dir'.cache.matches, dir'.state.members)
  {
    hide Replays, Sound, Different, ArrivedApart, Ranked, Admitted, PlayedOut, Retained, Kept, Joined, IdsOf;
    var all, ms := log.played.matches, dir'.state.members;
    MembersAfter(w, rules, files, draw, dir, dir', log);
    KeptAndJoined(w, rules, files, draw, dir, dir', log);
    FewResults(w, rules, files, draw, dir, dir', log);
    RankedOfPairs(rules.points, rules.newer, all, dir'.cache.matches, ms);
    var kept := Kept(w, rules.Decides(), dir'.sources, dir.state.members);
    var joined := Joined(rules, all, kept, log.entrants, dir.state.next);
    if rules.size == 0 || |joined| <= rules.size {
      RankedTwice(rules.points, rules.newer, all, joined);
      RankedKeeps(rules.points, rules.newer, all, joined);
    } else {
      RankedAlone(rules.points, rules.newer, all, ms);
    }
  }

  /** Challengers joining leave no more members than the hill holds. */
  lemma KeptAndJoined(w: World, rules: Rules, files: seq<Submission>, draw: Option<nat>, dir: Dir, dir': Dir, log: Log)
    requires Sound(w, dir) && Challenged(w, rules, files, draw, dir, dir', log)
    ensures var kept := Kept(w, rules.Decides(), dir'.sources, dir.state.members);
            var joined := Joined(rules, log.played.matches, kept, log.entrants, dir.state.next);
            if log.entrants == [] then joined == kept else rules.size > 0 ==> |joined| <= rules.size
  {
    hide Replays, Settled, SourceGood, PlayedOut, Retained, Kept;
    var f := rules.Decides();
    KeptIsTidy(w, f, dir'.sources, dir.state.members, dir.state.next);
    var kept := Kept(w, f, dir'.sources, dir.state.members);
    forall e | e in log.entrants
      ensures e.id !in Ids(kept)
    {
      assert Ids(kept) <= Ids(dir.state.members);
    }
    JoinedIsTidy(rules, log.played.matches, kept, log.entrants, dir.state.next);
  }

  /** The results kept are those of the members, unchanged. */
  lemma FewResults(w: World, rules: Rules, files: seq<Submission>, draw: Option<nat>, dir: Dir, dir': Dir, log: Log)
    requires Sound(w, dir) && Challenged(w, rules, files, draw, dir, dir', log)
    ensures var ms := dir'.state.members;
            && Different(ms) && Complete(log.played.matches, ms)
            && forall i, j :: 0 <= i < j < |ms| ==>
                 var k := Pairing(ms[i].id, ms[j].id);
                 k in dir'.cache.matches && dir'.cache.matches[k] == log.played.matches[k]
  {
    hide Sound, Challenged, Pairing, Pairs, Ids, ComesFrom, Kept;
    var ms := dir'.state.members;
    MembersAfter(w, rules, files, draw, dir, dir', log);
    ResultsAfter(w, rules, files, draw, dir, dir', log);
    forall i, j | 0 <= i < j < |ms|
      ensures var k := Pairing(ms[i].id, ms[j].id);
              k in dir'.cache.matches && k in log.played.matches && dir'.cache.matches[k] == log.played.matches[k]
    {
      PairsCover(ms, i, j);
      assert Replays(w, rules.Decides(), dir'.sources, dir'.cache, Pairing(ms[i].id, ms[j].id));
    }
  }

  /** What a challenge saves passes the audit, as long as the last trim is
      harmless. */
  lemma ChallengeVerifies(w: World, rules: Rules, files: seq<Submission>, draw: Option<nat>, dir: Dir, dir': Dir,
                          log: Log)
    requires Sound(w, dir) && Challenged(w, rules, files, draw, dir, dir', log)
    requires TrimHarmless(rules, |Kept(w, rules.Decides(), dir'.sources, dir.state.members)|, |log.entrants|)
    ensures Verified(w, rules, dir')
  {
    hide Replays, OrderRight, PlayedOut, Admitted, Kept, Joined, Settled, Sound, Entry, EntryOf;
    MembersAfter(w, rules, files, draw, dir, dir', log);
    ResultsAfter(w, rules, files, draw, dir, dir', log);
    OrderAfter(w, rules, files, draw, dir, dir', log);
    forall m | m in dir'.state.members
      ensures SourceGood(w, rules.Decides(), dir'.sources, m)
    {
      SourceAfter(w, rules, files, draw, dir, dir', log, m);
    }
  }

  lemma PlayedOutOnce(w: World, f: Fingerprint, draw: Option<nat>, sources: map<Id, string>, ms: seq<Member>,
                      before: Cache, one: Cache, two: Cache)
    requires PlayedOut(w, f, draw, sources, ms, before, one) && PlayedOut(w, f, draw, sources, ms, before, two)
    ensures one.matches == two.matches
  {
    hide Pairs, StoredSeed, NewSeed, ScoreOf;
    forall k | k in one.matches || k in two.matches
      ensures k in one.matches && k in two.matches && one.matches[k] == two.matches[k]
    {
      assert k in before.matches || k in Pairs(ms);
    }
  }

  /** A challenge has one outcome: the texts in their order, the hill and the
      number played from decide members, arrivals, sources and results. */
  lemma ChallengeDetermined(w: World, rules: Rules, files: seq<Submission>, draw: Option<nat>, dir: Dir,
                            one: Dir, log1: Log, two: Dir, log2: Log)
    requires Challenged(w, rules, files, draw, dir, one, log1) && Challenged(w, rules, files, draw, dir, two, log2)
    ensures log1.entrants == log2.entrants
    ensures one.state == two.state && one.sources == two.sources && one.cache.matches == two.cache.matches
  {
    hide Entry, SourceGood, Replays, StoredSeed, Pairs, PlayedOut, Kept, Joined, Settled;
    var f := rules.Decides();
    assert (log1.entrants, one.sources) == (log2.entrants, two.sources);
    var all := Kept(w, f, one.sources, dir.state.members) + log1.entrants;
    PlayedOutOnce(w, f, draw, one.sources, all, Opened(rules, dir), log1.played, log2.played);
  }

  // ---- any run of challenges ----

  /** One challenge of a run; the rules may have been edited since the one
      before. */
  datatype Event = Event(rules: Rules, files: seq<Submission>, draw: Option<nat>, log: Log)

  ghost predicate IsRun(w: World, first: Rules, run: seq<Dir>, events: seq<Event>) {
    && |run| == |events| + 1 && run[0] == Init(first)
    && forall n :: 0 <= n < |events| ==>
         Challenged(w, events[n].rules, events[n].files, events[n].draw, run[n], run[n + 1], events[n].log)
  }

  lemma {:induction false} SoundThroughout(w: World, first: Rules, run: seq<Dir>, events: seq<Event>, n: nat)
    requires IsRun(w, first, run, events) && n < |run|
    ensures Sound(w, run[n])
    decreases n
  {
    hide Sound, Challenged;
    if n == 0 {
      InitIsSound(w, first);
    } else {
      SoundThroughout(w, first, run, events, n - 1);
      var e := events[n - 1];
      ChallengeKeepsSound(w, e.rules, e.files, e.draw, run[n - 1], run[n], e.log);
    }
  }

  lemma InitIsSound(w: World, rules: Rules)
    ensures Sound(w, Init(rules)) && Verified(w, rules, Init(rules))
  {
  }

  /** Along any run from a new hill, through any edits of the rules, every
      challenge with a harmless last trim leaves a hill that verifies. */
  lemma EveryChallengeVerifies(w: World, first: Rules, run: seq<Dir>, events: seq<Event>, n: nat)
    requires IsRun(w, first, run, events) && n < |events|
    requires var e := events[n];
             TrimHarmless(e.rules, |Kept(w, e.rules.Decides(), run[n + 1].sources, run[n].state.members)|,
                 |e.log.entrants|)
    ensures Verified(w, events[n].rules, run[n + 1])
  {
    hide Sound, Challenged, Kept, Verified;
    SoundThroughout(w, first, run, events, n);
    var e := events[n];
    ChallengeVerifies(w, e.rules, e.files, e.draw, run[n], run[n + 1], e.log);
  }

  // ---- an open hill ----

  datatype Kind = BadRules | BadSource | BadState | BadResults | BadResult | BadRanking | BadSize

  class Hill {
    const rules: Rules
    /** The saved results were played under other rules. */
    const stale: bool
    var next: nat
    var members: seq<Member>
    var cache: Cache
    /** What is on disk. */
    var dir: Dir

    constructor (rules: Rules, dir: Dir)
      requires rules.Check()
      ensures this.rules == rules && this.dir == dir && Fresh()
    {
      this.rules := rules;
      this.dir := dir;
      stale := dir.cache.fingerprint != rules.Decides();
      next, members := dir.state.next, dir.state.members;
      cache := Opened(rules, dir);
    }

    /** As opened. */
    ghost predicate Fresh()
      reads this
    {
      && rules.Check() && stale == (dir.cache.fingerprint != rules.Decides())
      && next == dir.state.next && members == dir.state.members && cache == Opened(rules, dir)
    }

    // ---- ranking ----

    /** Each member's record against the others, in member order; none while a
        result is missing. */
    method Records() returns (r: Option<seq<Tally>>)
      requires Different(members)
      ensures r.Some? <==> Complete(cache.matches, members)
      ensures r.Some? ==> |r.value| == |members|
                          && forall i :: 0 <= i < |members| ==>
                             r.value[i] == Total(rules.points, cache.matches, members[i].id, members)
    {
      hide Total, Rows, Counted, Different, Tally.Plus, Reached;
      var p, ms := rules.points, members;
      var out: seq<Tally> := seq(|ms|, _ => NOTHING);
      NoRows(p, cache.matches, ms, out);
      for i := 0 to |ms|
        invariant Rows(p, cache.matches, ms, out, i) && |out| == |ms|
        invariant forall a, b :: 0 <= a < i && a < b < |ms| ==> Pairing(ms[a].id, ms[b].id) in cache.matches
      {
        RowBegins(p, cache.matches, ms, out, i);
        for j := i + 1 to |ms|
          invariant Counted(p, cache.matches, ms, out, i, j) && |out| == |ms|
          invariant forall b :: i < b < j ==> Pairing(ms[i].id, ms[b].id) in cache.matches
        {
          var key := Pairing(ms[i].id, ms[j].id);
          if key !in cache.matches {
            return None;
          }
          var s := cache.matches[key];
          var won, lost := if key.0 == ms[i].id then s.w1 else s.w2, if key.0 == ms[i].id then s.w2 else s.w1;
          ghost var before := out;
          out := out[i := out[i].Plus(Tally(p.win * won + p.tie * s.ties + p.loss * lost, won, s.ties, lost))];
          out := out[j := out[j].Plus(Tally(p.win * lost + p.tie * s.ties + p.loss * won, lost, s.ties, won))];
          MatchCounts(p, cache.matches, ms, before, out, i, j);
        }
        RowEnds(p, cache.matches, ms, out, i);
      }
      RowsDone(p, cache.matches, ms, out);
      r := Some(out);
    }

    /** Order the members: score, then the tie rule; false while a result is
        missing. */
    method Rank() returns (ok: bool)
      requires Different(members)
      modifies this`members
      ensures ok <==> Complete(cache.matches, old(members))
      ensures members == if ok then Ranked(rules.points, rules.newer, cache.matches, old(members)) else old(members)
      ensures ok ==> Ordered(rules.points, rules.newer, cache.matches, old(members), members)
    {
      hide Total, Different, Complete, Above, Ordered;
      var recs := Records();
      if recs.None? {
        return false;
      }
      ghost var all := members;
      var sorted: seq<Member>, scores: seq<int> := [], [];
      var k := |members|;
      assert members[k..] == [];
      while k > 0
        invariant k <= |members| == |recs.value| && |scores| == |sorted| && members == all
        invariant sorted == Sort(rules.points, rules.newer, cache.matches, all, members[k..])
        invariant forall i :: 0 <= i < |sorted| ==>
                    scores[i] == Total(rules.points, cache.matches, sorted[i].id, all).score
      {
        k := k - 1;
        assert members[k..][0] == members[k] && members[k..][1..] == members[k + 1..];
        var at := Place(members[k], recs.value[k].score, sorted, scores, all);
        sorted := sorted[..at] + [members[k]] + sorted[at..];
        scores := scores[..at] + [recs.value[k].score] + scores[at..];
      }
      assert members[0..] == members;
      RankedReads(rules.points, rules.newer, cache.matches, members);
      members := sorted;
      ok := true;
    }

    /** Where a member of score `score` goes in a table already sorted. */
    method Place(m: Member, score: int, sorted: seq<Member>, scores: seq<int>, ghost all: seq<Member>) returns (at: nat)
      requires |scores| == |sorted| && score == Total(rules.points, cache.matches, m.id, all).score
      requires forall i :: 0 <= i < |sorted| ==>
                 scores[i] == Total(rules.points, cache.matches, sorted[i].id, all).score
      ensures at <= |sorted|
      ensures Insert(rules.points, rules.newer, cache.matches, all, m, sorted) == sorted[..at] + [m] + sorted[at..]
    {
      hide Total;
      at := 0;
      while at < |sorted| && (scores[at] > score || (scores[at] == score
          && if rules.newer then sorted[at].arrived > m.arrived else sorted[at].arrived < m.arrived))
        invariant at <= |sorted|
        invariant forall i :: 0 <= i < at ==> Above(rules.points, rules.newer, cache.matches, all, sorted[i], m)
      {
        at := at + 1;
      }
      InsertAt(rules.points, rules.newer, cache.matches, all, m, sorted, at);
    }

    /** Drop members past the size. */
    method Trim() returns (gone: seq<Member>)
      modifies this`members
      ensures members == Trimmed(rules.size, old(members)) && old(members) == members + gone
    {
      if rules.size == 0 || |members| <= rules.size {
        return [];
      }
      gone := members[rules.size..];
      members := members[..rules.size];
    }

    // ---- a challenge ----

    /** The texts that assemble and are not known, their sources written to the
        directory. */
    method Admit(w: World, files: seq<Submission>) returns (entrants: seq<Member>)
      modifies this`dir
      ensures dir == old(dir).(sources := dir.sources)
      ensures Admitted(w, rules.Decides(), files, members, old(dir.sources), entrants, dir.sources)
    {
      hide Admitted, Entry;
      var f := rules.Decides();
      entrants := [];
      NobodyAdmitted(w, f, members, dir.sources);
      assert files[..0] == [];
      for n := 0 to |files|
        invariant dir == old(dir).(sources := dir.sources)
        invariant Admitted(w, f, files[..n], members, old(dir.sources), entrants, dir.sources)
      {
        assert files[..n + 1] == files[..n] + [files[n]];
        var text := files[n].text;
        var built := if text.Some? then Entry(w, f, text.value) else None;
        var id := if text.Some? then w.hash(text.value) else 0;
        var known := id in Ids(members) || id in Ids(entrants);
        if built.None? || known {
          RefusedStays(w, f, files[..n], files[n], members, old(dir.sources), entrants, dir.sources);
        } else {
          var e := Newcomer(w, files[n].file, text.value);
          NewcomerEnters(w, f, files[..n], files[n], members, old(dir.sources), entrants, dir.sources, e);
          dir := dir.(sources := dir.sources[id := text.value]);
          entrants := entrants + [e];
        }
      }
      assert files[..|files|] == files;
    }

    /** The members whose sources assemble, compiled for both places. */
    method Keep(w: World, ms: seq<Member>, compiled: map<Id, Contender>)
      returns (kept: seq<Member>, out: map<Id, Contender>)
      requires CompiledRight(w, rules.Decides(), dir.sources, compiled)
      ensures kept == Kept(w, rules.Decides(), dir.sources, ms)
      ensures CompiledRight(w, rules.Decides(), dir.sources, out)
      ensures Ids(kept) <= out.Keys && compiled.Keys <= out.Keys
    {
      hide Entry;
      var f := rules.Decides();
      kept, out := [], compiled;
      for n := 0 to |ms|
        invariant kept == Kept(w, f, dir.sources, ms[..n]) && CompiledRight(w, f, dir.sources, out)
        invariant Ids(kept) <= out.Keys && compiled.Keys <= out.Keys
      {
        assert ms[..n + 1][..n] == ms[..n];
        var built := if ms[n].id in dir.sources then Entry(w, f, dir.sources[ms[n].id]) else None;
        if built.Some? {
          out := out[ms[n].id := built.value];
          kept := kept + [ms[n]];
        }
      }
      assert ms[..|ms|] == ms;
    }

    /** The pairs without a stored match, each with the seed it will be played
        with. */
    method Missing(w: World, f: Fingerprint, draw: Option<nat>, pairs: seq<Key>)
      returns (missing: seq<(Key, nat)>, ghost keys: seq<Key>)
      ensures |keys| == |missing| && forall i :: 0 <= i < |keys| ==> keys[i] == missing[i].0
      ensures forall i :: 0 <= i < |missing| ==>
                missing[i].0 in pairs && missing[i].0 !in cache.matches
                    && missing[i].1 == NewSeed(w, f, draw, missing[i].0)
      ensures forall k :: k in pairs ==> k in cache.matches || k in keys
    {
      missing, keys := [], [];
      for n := 0 to |pairs|
        invariant |keys| == |missing| && forall i :: 0 <= i < |keys| ==> keys[i] == missing[i].0
        invariant forall i :: 0 <= i < |missing| ==>
                    missing[i].0 in pairs && missing[i].0 !in cache.matches
                        && missing[i].1 == NewSeed(w, f, draw, missing[i].0)
        invariant forall i :: 0 <= i < n ==> pairs[i] in cache.matches || pairs[i] in keys
      {
        if pairs[n] !in cache.matches {
          missing := missing + [(pairs[n], NewSeed(w, f, draw, pairs[n]))];
          keys := keys + [pairs[n]];
        }
      }
    }

    /** Every missing match among `ms`, at once. */
    method PlayMissing(w: World, ms: seq<Member>, draw: Option<nat>, compiled: map<Id, Contender>)
      requires draw.Some? == rules.placement.Random? && cache.fingerprint == rules.Decides()
      requires CompiledRight(w, rules.Decides(), dir.sources, compiled) && Ids(ms) <= compiled.Keys
      modifies this`cache
      ensures PlayedOut(w, rules.Decides(), draw, dir.sources, ms, old(cache), cache)
      ensures cache.fingerprint == rules.Decides()
    {
      hide Grown, Replays, Pairs, Entry;
      var f := rules.Decides();
      var pairs := Pairs(ms);
      ghost var keys;
      var missing;
      missing, keys := Missing(w, f, draw, pairs);
      ghost var before := cache;
      NothingGrown(w, f, draw, dir.sources, ms, cache);
      for n := 0 to |missing|
        invariant Grown(w, f, draw, dir.sources, ms, before, cache) && cache.fingerprint == f
        invariant forall i :: 0 <= i < n ==> missing[i].0 in cache.matches
        invariant forall k :: k in before.matches ==> k in cache.matches
      {
        var k, s := missing[n].0, missing[n].1;
        PairIds(ms, k);
        var score := w.play(f.First(), compiled[k.0].first, compiled[k.1].second, f.rounds, s);
        ScoreIsPlayed(w, f, dir.sources, compiled, k, s);
        MatchGrows(w, f, draw, dir.sources, ms, before, cache, k, score);
        if draw.Some? {
          cache := cache.(seeds := cache.seeds[k := s]);
        }
        cache := cache.(matches := cache.matches[k := score]);
      }
      assert forall i :: 0 <= i < |keys| ==> missing[i].0 in cache.matches;
      GrownIsPlayedOut(w, f, draw, dir.sources, ms, before, cache);
    }

    /** A challenger joins: the lowest falls off. */
    method JoinOne(e: Member)
      requires Different(members + [e.(arrived := next)]) && Complete(cache.matches, members + [e.(arrived := next)])
      modifies this`members, this`next
      ensures next == old(next) + 1
      ensures members == Settled(rules, cache.matches, old(members) + [e.(arrived := old(next))])
    {
      hide Ranked;
      members := members + [e.(arrived := next)];
      next := next + 1;
      var ok := Rank();
      var gone := Trim();
    }

    /** The challengers join one at a time. */
    method JoinAll(entrants: seq<Member>, ghost kept: seq<Member>)
      requires members == kept && Tidy(kept, next) && Different(kept + entrants)
      requires forall k :: k in Pairs(kept + entrants) ==> k in cache.matches
      modifies this`members, this`next
      ensures members == Joined(rules, cache.matches, kept, entrants, old(next)) && next == old(next) + |entrants|
    {
      hide Settled, Pairs, Different, Complete;
      EntrantsApart(kept, entrants);
      for n := 0 to |entrants|
        invariant next == old(next) + n && Tidy(members, next)
        invariant Joined(rules, cache.matches, members, entrants[n..], next) == Joined(rules, cache.matches, kept,
                    entrants, old(next))
        invariant forall i :: n <= i < |entrants| ==> entrants[i].id !in Ids(members)
        invariant Ids(members) <= Ids(kept + entrants)
      {
        var e := entrants[n];
        assert entrants[n..][1..] == entrants[n + 1..];
        ReadyToJoin(cache.matches, members, e, kept + entrants, next);
        ghost var all := members + [e.(arrived := next)];
        JoinIsTidy(members, e, next);
        SettledIsTidy(rules, cache.matches, all, next + 1);
        IdsJoin(members, e, next, Settled(rules, cache.matches, all));
        DistinctEntrants(entrants, n);
        JoinOne(e);
      }
    }

    /** The whole challenge: who enters, who still assembles, the matches
        missing, the challengers one at a time, a last ranking and trim, and the
        directory saved. A hill with hashed placement refuses a number to play
        from; one with random placement takes it or draws one from `os`. */
    method Challenge(w: World, files: seq<Submission>, given: Option<nat>, os: Option<nat>)
      returns (done: bool, ghost log: Log, draw: Option<nat>)
      requires Fresh() && Sound(w, dir)
      modifies this
      ensures done <==> if rules.placement.Hashed? then given.None? else given.Some? || os.Some?
      ensures !done ==> dir == old(dir)
      ensures done ==> draw == (if rules.placement.Hashed? then None else if given.Some? then given else os)
      ensures done ==> Challenged(w, rules, files, draw, old(dir), dir, log)
    {
      hide Admitted, PlayedOut, Kept, Ranked, Trimmed, Joined, Pairs, Replays, CompiledRight, Entry, Complete;
      draw := None;
      log := Log([], cache);
      if rules.placement.Hashed? {
        if given.Some? {
          return false, log, None;
        }
      } else {
        draw := if given.Some? then given else os;
        if draw.None? {
          return false, log, None;
        }
      }
      ghost var f, start := rules.Decides(), dir.state;
      var entrants := Admit(w, files);
      NothingCompiled(w, f, dir.sources);
      var kept, compiled := Keep(w, members, map[]);
      var joining, all := Keep(w, entrants, compiled);
      EntrantsKept(w, f, files, members, old(dir.sources), entrants, dir.sources);
      members := kept;
      CompiledIds(kept, entrants, all);
      PlayMissing(w, kept + entrants, draw, all);
      ghost var played := cache;
      log := Log(entrants, played);
      EveryoneReady(w, f, files, start.members, start.next, old(dir.sources), entrants, dir.sources);
      PlayedAll(w, f, draw, dir.sources, kept + entrants, old(cache), cache);
      JoinedComplete(rules, cache.matches, kept, entrants, next);
      JoinAll(entrants, kept);
      var ok := Rank();
      var gone := Trim();
      cache := Retained(cache.fingerprint, cache, Ids(members));
      dir := Dir(State(next, members), cache, dir.sources);
      done := true;
    }

    // ---- the audit ----

    method CheckState() returns (problems: seq<Kind>)
      ensures problems == [] <==> Different(members)
    {
      problems := [];
      var seen: set<Id> := {};
      for n := 0 to |members|
        invariant seen == Ids(members[..n])
        invariant problems == [] <==> Different(members[..n])
      {
        AnotherId(members, n);
        if members[n].id in seen {
          problems := problems + [BadState];
        }
        seen := seen + {members[n].id};
      }
      assert members[..|members|] == members;
    }

    method CheckSources(w: World) returns (problems: seq<Kind>, compiled: map<Id, Contender>)
      ensures problems == [] <==> forall m :: m in members ==> SourceGood(w, rules.Decides(), dir.sources, m)
      ensures CompiledRight(w, rules.Decides(), dir.sources, compiled)
      ensures problems == [] ==> Ids(members) <= compiled.Keys
    {
      hide Entry;
      var f := rules.Decides();
      problems, compiled := [], map[];
      for n := 0 to |members|
        invariant problems == [] <==> forall i :: 0 <= i < n ==> SourceGood(w, f, dir.sources, members[i])
        invariant CompiledRight(w, f, dir.sources, compiled)
        invariant problems == [] ==> forall i :: 0 <= i < n ==> members[i].id in compiled
      {
        var m := members[n];
        if m.id !in dir.sources || w.hash(dir.sources[m.id]) != m.id {
          problems := problems + [BadSource];
        } else {
          var built := Entry(w, f, dir.sources[m.id]);
          if built.None? {
            problems := problems + [BadSource];
          } else {
            if w.name(dir.sources[m.id]) != m.name || w.author(dir.sources[m.id]) != m.author {
              problems := problems + [BadSource];
            }
            compiled := compiled[m.id := built.value];
          }
        }
      }
    }

    /** Pairs without a result or a seed, and the matches to play again. */
    method CheckPairs(w: World, compiled: map<Id, Contender>)
      returns (problems: seq<Kind>, expected: set<Key>, jobs: seq<(Key, nat)>)
      ensures problems == [] <==> forall k :: k in Pairs(members) ==> Stored(w, rules.Decides(), cache, k)
      ensures forall k :: k in expected <==> k in Pairs(members) && k in cache.matches
      ensures forall i :: 0 <= i < |jobs| ==> Replayable(w, rules.Decides(), cache, compiled, jobs[i])
      ensures problems == [] && Ids(members) <= compiled.Keys ==> forall k :: k in Pairs(members) ==>
                exists i :: 0 <= i < |jobs| && jobs[i].0 == k
    {
      hide Pairs;
      var f, pairs := rules.Decides(), Pairs(members);
      problems, expected, jobs := [], {}, [];
      ghost var full := Ids(members) <= compiled.Keys;
      ghost var keys: seq<Key> := [];
      for n := 0 to |pairs|
        invariant problems == [] <==> forall i :: 0 <= i < n ==> Stored(w, f, cache, pairs[i])
        invariant forall k :: k in expected <==> k in pairs[..n] && k in cache.matches
        invariant forall i :: 0 <= i < |jobs| ==> Replayable(w, f, cache, compiled, jobs[i])
        invariant |keys| == |jobs| && forall i :: 0 <= i < |keys| ==> keys[i] == jobs[i].0
        invariant problems == [] && full ==> forall i :: 0 <= i < n ==> pairs[i] in keys
      {
        var k := pairs[n];
        assert pairs[..n + 1] == pairs[..n] + [k];
        PairIds(members, k);
        if k !in cache.matches {
          problems := problems + [BadResults];
        } else {
          expected := expected + {k};
          var placed := StoredSeed(w, f, cache.seeds, k);
          if placed.None? {
            problems := problems + [BadResults];
          } else if k.0 in compiled && k.1 in compiled {
            jobs := jobs + [(k, placed.value)];
            keys := keys + [k];
          }
        }
      }
      assert pairs[..|pairs|] == pairs;
    }

    method CheckKeys(expected: set<Key>) returns (problems: seq<Kind>)
      ensures problems == [] <==> forall k :: k in cache.matches ==> k in expected
    {
      problems := [];
      var left := cache.matches.Keys;
      while left != {}
        invariant left <= cache.matches.Keys
        invariant problems == [] <==> forall k :: k in cache.matches && k !in left ==> k in expected
        decreases |left|
      {
        var k :| k in left;
        if k !in expected {
          problems := problems + [BadResults];
        }
        left := left - {k};
      }
    }

    method CheckReplays(w: World, compiled: map<Id, Contender>, jobs: seq<(Key, nat)>) returns (problems: seq<Kind>)
      requires CompiledRight(w, rules.Decides(), dir.sources, compiled)
      requires forall i :: 0 <= i < |jobs| ==> Replayable(w, rules.Decides(), cache, compiled, jobs[i])
      ensures problems == [] <==> forall i :: 0 <= i < |jobs| ==>
                Replays(w, rules.Decides(), dir.sources, cache, jobs[i].0)
    {
      hide CompiledRight, ScoreOf;
      var f := rules.Decides();
      problems := [];
      for n := 0 to |jobs|
        invariant problems == [] <==> forall i :: 0 <= i < n ==> Replays(w, f, dir.sources, cache, jobs[i].0)
      {
        var k, s := jobs[n].0, jobs[n].1;
        assert Replayable(w, f, cache, compiled, jobs[n]);
        ScoreIsPlayed(w, f, dir.sources, compiled, k, s);
        var again := w.play(f.First(), compiled[k.0].first, compiled[k.1].second, f.rounds, s);
        if cache.matches[k] != again {
          problems := problems + [BadResult];
        }
      }
    }

    /** Whether the table is in the order the rules give; a table that lists a
        member twice or misses a result is reported elsewhere. */
    method CheckOrder() returns (problems: seq<Kind>)
      ensures Different(members) && Complete(cache.matches, members) ==>
                (problems == [] <==> OrderRight(rules, cache.matches, members))
      ensures problems != [] ==> Different(members) && Complete(cache.matches, members)
    {
      problems := [];
      var twice := CheckState();
      if twice == [] {
        var records := Records();
        if records.Some? && IdsOf(Ranked(rules.points, rules.newer, cache.matches, members)) != IdsOf(members) {
          problems := [BadRanking];
        }
      }
    }

    /** The audit finds nothing exactly when the directory is one an honest run
        leaves. */
    method Verify(w: World) returns (problems: seq<Kind>)
      requires Fresh()
      ensures problems == [] <==> Verified(w, rules, dir)
    {
      hide SourceGood, Pairs, OrderRight, Different, CompiledRight, Stored, Replays, StoredSeed;
      problems := CheckState();
      var sources, compiled := CheckSources(w);
      problems := problems + sources;
      if rules.size > 0 && |members| > rules.size {
        problems := problems + [BadSize];
      }
      if stale {
        problems := problems + [BadRules];
        return;
      }
      var pairs, expected, jobs := CheckPairs(w, compiled);
      var keys := CheckKeys(expected);
      var replays := CheckReplays(w, compiled, jobs);
      var order := CheckOrder();
      ResultsChecked(w, rules.Decides(), dir.sources, cache, members, compiled, jobs);
      problems := problems + pairs + keys + replays + order;
    }
  }

  // ---- records row by row ----

  /** Rows before `i` are counted in full, the others against those. */
  ghost predicate Rows(p: Points, matches: map<Key, Score>, ms: seq<Member>, out: seq<Tally>, i: nat) {
    && |out| == |ms| && i <= |ms|
    && forall k :: 0 <= k < |ms| ==> out[k] == Total(p, matches, ms[k].id, ms[..if k < i then |ms| else i])
  }

  /** In row `i`, columns before `j`. */
  ghost predicate Counted(p: Points, matches: map<Key, Score>, ms: seq<Member>, out: seq<Tally>, i: nat, j: nat) {
    && |out| == |ms| && i < j <= |ms|
    && forall k :: 0 <= k < |ms| ==> out[k] == Total(p, matches, ms[k].id, ms[..Reached(k, i, j, |ms|)])
  }

  lemma NoRows(p: Points, matches: map<Key, Score>, ms: seq<Member>, out: seq<Tally>)
    requires out == seq(|ms|, _ => NOTHING)
    ensures Rows(p, matches, ms, out, 0)
  {
  }

  lemma RowBegins(p: Points, matches: map<Key, Score>, ms: seq<Member>, out: seq<Tally>, i: nat)
    requires i < |ms| && Rows(p, matches, ms, out, i)
    ensures Counted(p, matches, ms, out, i, i + 1)
  {
    hide Total;
    TotalTakes(p, matches, ms, i, i);
  }

  lemma RowEnds(p: Points, matches: map<Key, Score>, ms: seq<Member>, out: seq<Tally>, i: nat)
    requires i < |ms| && Counted(p, matches, ms, out, i, |ms|)
    ensures Rows(p, matches, ms, out, i + 1)
  {
  }

  lemma RowsDone(p: Points, matches: map<Key, Score>, ms: seq<Member>, out: seq<Tally>)
    requires Rows(p, matches, ms, out, |ms|)
    ensures forall k :: 0 <= k < |ms| ==> out[k] == Total(p, matches, ms[k].id, ms)
  {
    assert ms[..|ms|] == ms;
  }

  lemma MatchCounts(p: Points, matches: map<Key, Score>, ms: seq<Member>, before: seq<Tally>, out: seq<Tally>, i: nat,
                    j: nat)
    requires Different(ms) && i < j < |ms| && Counted(p, matches, ms, before, i, j)
    requires Pairing(ms[i].id, ms[j].id) in matches
    requires var key := Pairing(ms[i].id, ms[j].id);
             var s := matches[key];
             var won, lost := if key.0 == ms[i].id then s.w1 else s.w2, if key.0 == ms[i].id then s.w2 else s.w1;
             out == before[i := before[i].Plus(Tally(p.win * won + p.tie * s.ties + p.loss * lost, won, s.ties, lost))]
                          [j := before[j].Plus(Tally(p.win * lost + p.tie * s.ties + p.loss * won, lost, s.ties, won))]
    ensures Counted(p, matches, ms, out, i, j + 1)
  {
    hide Total, Tally.Plus;
    TotalTakes(p, matches, ms, i, j);
    TotalTakes(p, matches, ms, j, i);
  }

  /** How far the others are counted into record `k` when row `i` has reached
      column `j`. */
  function Reached(k: nat, i: nat, j: nat, n: nat): (r: nat)
    requires i < j <= n
    ensures r <= n
  {
    if k < i then n else if k == i then j else if k < j then i + 1 else i
  }

  lemma TotalTakes(p: Points, matches: map<Key, Score>, ms: seq<Member>, k: nat, j: nat)
    requires k < |ms| && j < |ms|
    ensures Total(p, matches, ms[k].id, ms[..j + 1])
            == Total(p, matches, ms[k].id, ms[..j]).Plus(Brings(p, matches, ms[k].id, ms[j].id))
  {
    assert ms[..j + 1] == ms[..j] + [ms[j]];
    TotalAppends(p, matches, ms[k].id, ms[..j], ms[j]);
  }

  lemma {:induction false} InsertAt(p: Points, newer: bool, matches: map<Key, Score>, all: seq<Member>, m: Member,
                                    s: seq<Member>, at: nat)
    requires at <= |s| && forall i :: 0 <= i < at ==> Above(p, newer, matches, all, s[i], m)
    requires at < |s| ==> !Above(p, newer, matches, all, s[at], m)
    ensures Insert(p, newer, matches, all, m, s) == s[..at] + [m] + s[at..]
  {
    hide Above;
    if at > 0 {
      InsertAt(p, newer, matches, all, m, s[1..], at - 1);
    }
  }

  // ---- admission ----

  lemma NobodyAdmitted(w: World, f: Fingerprint, members: seq<Member>, sources: map<Id, string>)
    ensures Admitted(w, f, [], members, sources, [], sources)
  {
  }

  /** A file that is unreadable, refused or known changes nothing. */
  lemma RefusedStays(w: World, f: Fingerprint, files: seq<Submission>, file: Submission, members: seq<Member>,
                     before: map<Id, string>,
                     entrants: seq<Member>, sources: map<Id, string>)
    requires Admitted(w, f, files, members, before, entrants, sources)
    requires file.text.Some? && Entry(w, f, file.text.value).Some? ==>
               w.hash(file.text.value) in Ids(members) + Ids(entrants)
    ensures Admitted(w, f, files + [file], members, before, entrants, sources)
  {
    hide Entry;
    assert (files + [file])[..|files|] == files;
    forall e | e in entrants
      ensures e.id in sources
      ensures exists n :: 0 <= n < |files + [file]| && (files + [file])[n].text == Some(sources[e.id])
                && (files + [file])[n].file == e.file
    {
      var n :| 0 <= n < |files| && files[n].text == Some(sources[e.id]) && files[n].file == e.file;
      assert (files + [file])[n] == files[n];
    }
  }

  lemma NewcomerEnters(w: World, f: Fingerprint, files: seq<Submission>, file: Submission, members: seq<Member>,
                       before: map<Id, string>,
                       entrants: seq<Member>, sources: map<Id, string>, e: Member)
    requires Admitted(w, f, files, members, before, entrants, sources)
    requires file.text.Some? && Entry(w, f, file.text.value).Some? && e == Newcomer(w, file.file, file.text.value)
    requires e.id !in Ids(members) && e.id !in Ids(entrants)
    ensures Admitted(w, f, files + [file], members, before, entrants + [e], sources[e.id := file.text.value])
  {
    hide Entry;
    var after := sources[e.id := file.text.value];
    var all := files + [file];
    assert all[|files|] == file && all[..|files|] == files;
    forall x | x in entrants
      ensures x.id != e.id && SourceGood(w, f, after, x)
      ensures exists n :: 0 <= n < |all| && all[n].text == Some(after[x.id]) && all[n].file == x.file
    {
      assert x.id in Ids(entrants);
      var n :| 0 <= n < |files| && files[n].text == Some(sources[x.id]) && files[n].file == x.file;
      assert all[n] == files[n];
    }
    forall i | 0 <= i < |entrants|
      ensures entrants[i].id != e.id
    {
      assert entrants[i] in entrants;
    }
    IdsWith(entrants, e);
  }

  lemma IdsWith(ms: seq<Member>, e: Member)
    ensures Ids(ms + [e]) == Ids(ms) + {e.id}
  {
    forall x | x in Ids(ms) + {e.id}
      ensures x in Ids(ms + [e])
    {
      if x == e.id {
        assert e in ms + [e];
      } else {
        var m :| m in ms && m.id == x;
        assert m in ms + [e];
      }
    }
  }

  // ---- playing what is missing ----

  predicate CompiledRight(w: World, f: Fingerprint, sources: map<Id, string>, compiled: map<Id, Contender>) {
    forall id :: id in compiled ==> EntryOf(w, f, sources, id) == Some(compiled[id])
  }

  lemma PairIds(ms: seq<Member>, k: Key)
    requires k in Pairs(ms)
    ensures k.0 in Ids(ms) && k.1 in Ids(ms)
  {
    var i, j := PairsOnly(ms, k);
    assert ms[i] in ms && ms[j] in ms;
  }

  lemma ScoreIsPlayed(w: World, f: Fingerprint, sources: map<Id, string>, compiled: map<Id, Contender>, k: Key, s: nat)
    requires CompiledRight(w, f, sources, compiled) && k.0 in compiled && k.1 in compiled
    ensures ScoreOf(w, f, sources, k, s)
            == Some(w.play(f.First(), compiled[k.0].first, compiled[k.1].second, f.rounds, s))
  {
    hide Entry, EntryOf;
  }

  /** `after` is `before` with some missing matches of `ms` played. */
  ghost predicate Grown(w: World, f: Fingerprint, draw: Option<nat>, sources: map<Id, string>, ms: seq<Member>,
                        before: Cache, after: Cache) {
    && (forall k :: k in before.matches ==> k in after.matches && after.matches[k] == before.matches[k]
                                            && StoredSeed(w, f, after.seeds, k) == StoredSeed(w, f, before.seeds, k))
    && (forall k :: k in after.matches && k !in before.matches ==>
          && k in Pairs(ms) && StoredSeed(w, f, after.seeds, k) == Some(NewSeed(w, f, draw, k))
          && Replays(w, f, sources, after, k))
  }

  lemma NothingGrown(w: World, f: Fingerprint, draw: Option<nat>, sources: map<Id, string>, ms: seq<Member>,
                     before: Cache)
    ensures Grown(w, f, draw, sources, ms, before, before)
  {
  }

  lemma GrownIsPlayedOut(w: World, f: Fingerprint, draw: Option<nat>, sources: map<Id, string>, ms: seq<Member>,
                         before: Cache, after: Cache)
    requires Grown(w, f, draw, sources, ms, before, after) && forall k :: k in Pairs(ms) ==> k in after.matches
    ensures PlayedOut(w, f, draw, sources, ms, before, after)
  {
    hide Replays, StoredSeed, NewSeed, Pairs;
  }

  lemma MatchGrows(w: World, f: Fingerprint, draw: Option<nat>, sources: map<Id, string>, ms: seq<Member>,
                   before: Cache, cache: Cache, k: Key, score: Score)
    requires Grown(w, f, draw, sources, ms, before, cache) && draw.Some? == f.placement.Random?
    requires k in Pairs(ms) && k !in before.matches && ScoreOf(w, f, sources, k, NewSeed(w, f, draw, k)) == Some(score)
    ensures var seeds := if draw.Some? then cache.seeds[k := NewSeed(w, f, draw, k)] else cache.seeds;
            Grown(w, f, draw, sources, ms, before, Cache(cache.fingerprint, cache.matches[k := score], seeds))
  {
    hide Pairs, ScoreOf;
  }

  // ---- joining ----

  lemma EntrantsApart(kept: seq<Member>, entrants: seq<Member>)
    requires Different(kept + entrants)
    ensures Different(entrants) && forall i :: 0 <= i < |entrants| ==> entrants[i].id !in Ids(kept)
    ensures Ids(kept) <= Ids(kept + entrants)
  {
    var all := kept + entrants;
    forall i, j | 0 <= i < |entrants| && 0 <= j < |kept|
      ensures entrants[i].id != kept[j].id
    {
      assert all[j] == kept[j] && all[|kept| + i] == entrants[i];
    }
    forall i, j | 0 <= i < j < |entrants|
      ensures entrants[i].id != entrants[j].id
    {
      assert all[|kept| + i] == entrants[i] && all[|kept| + j] == entrants[j];
    }
    assert forall m :: m in kept ==> m in all;
  }

  lemma DistinctEntrants(entrants: seq<Member>, n: nat)
    requires Different(entrants) && n < |entrants|
    ensures forall i :: n < i < |entrants| ==> entrants[i].id != entrants[n].id
  {
  }

  lemma ReadyToJoin(matches: map<Key, Score>, ms: seq<Member>, e: Member, all: seq<Member>, next: nat)
    requires Tidy(ms, next) && e.id !in Ids(ms) && e in all && Ids(ms) <= Ids(all)
    requires forall k :: k in Pairs(all) ==> k in matches
    ensures Different(ms + [e.(arrived := next)]) && Complete(matches, ms + [e.(arrived := next)])
  {
    hide Pairs;
    var now := ms + [e.(arrived := next)];
    forall i | 0 <= i < |now|
      ensures now[i].id in Ids(all) && (i < |ms| ==> now[i].id != e.id)
    {
      assert i < |ms| ==> ms[i] in ms;
    }
    forall i, j | 0 <= i < j < |now|
      ensures now[i].id != now[j].id && Pairing(now[i].id, now[j].id) in matches
    {
      PairsByIds(all, now[i].id, now[j].id);
    }
  }

  lemma IdsJoin(ms: seq<Member>, e: Member, next: nat, settled: seq<Member>)
    requires forall m :: m in settled ==> m in ms + [e.(arrived := next)]
    ensures Ids(settled) <= Ids(ms) + {e.id}
  {
  }

  // ---- the steps of a challenge, tied together ----

  lemma NothingCompiled(w: World, f: Fingerprint, sources: map<Id, string>)
    ensures CompiledRight(w, f, sources, map[])
  {
  }

  lemma {:induction false} AllKept(w: World, f: Fingerprint, sources: map<Id, string>, ms: seq<Member>)
    requires forall m :: m in ms ==> EntryOf(w, f, sources, m.id).Some?
    ensures Kept(w, f, sources, ms) == ms
  {
    hide EntryOf;
    if ms != [] {
      AllKept(w, f, sources, ms[..|ms| - 1]);
      assert ms == ms[..|ms| - 1] + [ms[|ms| - 1]];
    }
  }

  lemma EntrantsKept(w: World, f: Fingerprint, files: seq<Submission>, members: seq<Member>, before: map<Id, string>,
                     entrants: seq<Member>, sources: map<Id, string>)
    requires Admitted(w, f, files, members, before, entrants, sources)
    ensures Kept(w, f, sources, entrants) == entrants
  {
    hide Entry;
    AllKept(w, f, sources, entrants);
  }

  lemma CompiledIds(kept: seq<Member>, entrants: seq<Member>, compiled: map<Id, Contender>)
    requires Ids(kept) <= compiled.Keys && Ids(entrants) <= compiled.Keys
    ensures Ids(kept + entrants) <= compiled.Keys
  {
    forall x | x in Ids(kept + entrants)
      ensures x in compiled.Keys
    {
      var m :| m in kept + entrants && m.id == x;
      assert m in kept || m in entrants;
    }
  }

  lemma EveryoneReady(w: World, f: Fingerprint, files: seq<Submission>, members: seq<Member>, next: nat,
                      before: map<Id, string>, entrants: seq<Member>, sources: map<Id, string>)
    requires Tidy(members, next) && Admitted(w, f, files, members, before, entrants, sources)
    ensures var kept := Kept(w, f, sources, members); Tidy(kept, next) && Different(kept + entrants)
  {
    hide SourceGood, Kept;
    KeptIsTidy(w, f, sources, members, next);
    var kept := Kept(w, f, sources, members);
    forall i, j | 0 <= i < |kept| && 0 <= j < |entrants|
      ensures kept[i].id != entrants[j].id
    {
      assert kept[i] in members && entrants[j] in entrants;
    }
  }

  lemma PlayedAll(w: World, f: Fingerprint, draw: Option<nat>, sources: map<Id, string>, ms: seq<Member>, before: Cache,
                  after: Cache)
    requires PlayedOut(w, f, draw, sources, ms, before, after)
    ensures forall k :: k in Pairs(ms) ==> k in after.matches
  {
  }

  /** After the challengers joined, the members left can be ranked. */
  lemma JoinedComplete(rules: Rules, matches: map<Key, Score>, kept: seq<Member>, entrants: seq<Member>, next: nat)
    requires Tidy(kept, next) && Different(kept + entrants) && forall k :: k in Pairs(kept + entrants) ==> k in matches
    ensures var r := Joined(rules, matches, kept, entrants, next); Different(r) && Complete(matches, r)
  {
    hide Pairs, Joined, Different, ArrivedApart;
    EntrantsApart(kept, entrants);
    JoinedIsTidy(rules, matches, kept, entrants, next);
    var r := Joined(rules, matches, kept, entrants, next);
    IdsAfter(kept, entrants, r);
    forall i, j | 0 <= i < j < |r|
      ensures Pairing(r[i].id, r[j].id) in matches
    {
      DifferentAt(r, i, j);
      PairsByIds(kept + entrants, r[i].id, r[j].id);
    }
  }

  lemma DifferentAt(ms: seq<Member>, i: nat, j: nat)
    requires Different(ms) && i < j < |ms|
    ensures ms[i].id != ms[j].id && ms[i].id in Ids(ms) && ms[j].id in Ids(ms)
  {
    assert ms[i] in ms && ms[j] in ms;
  }

  // ---- the audit's pieces ----

  lemma AnotherId(ms: seq<Member>, n: nat)
    requires n < |ms|
    ensures Different(ms[..n + 1]) <==> Different(ms[..n]) && ms[n].id !in Ids(ms[..n])
    ensures Ids(ms[..n + 1]) == Ids(ms[..n]) + {ms[n].id}
  {
    var now, before := ms[..n + 1], ms[..n];
    assert now == before + [ms[n]];
    if ms[n].id in Ids(before) {
      var m :| m in before && m.id == ms[n].id;
      var i :| 0 <= i < n && ms[i] == m;
      assert now[i].id == now[n].id;
    }
    forall i | 0 <= i < n
      ensures ms[i].id in Ids(before)
    {
      assert before[i] in before;
    }
    if Different(now) {
      forall i, j | 0 <= i < j < n
        ensures before[i].id != before[j].id
      {
        assert now[i] == before[i] && now[j] == before[j];
      }
    }
  }

  /** A pair has its result and a seed to replay it with. */
  predicate Stored(w: World, f: Fingerprint, cache: Cache, k: Key) {
    k in cache.matches && StoredSeed(w, f, cache.seeds, k).Some?
  }

  predicate Replayable(w: World, f: Fingerprint, cache: Cache, compiled: map<Id, Contender>, job: (Key, nat)) {
    job.0 in cache.matches && StoredSeed(w, f, cache.seeds, job.0) == Some(job.1) && job.0.0 in compiled
        && job.0.1 in compiled
  }

  /** When no pair lacks a result, a seed or a warrior, the matches played again
      are all of them. */
  lemma ResultsChecked(w: World, f: Fingerprint, sources: map<Id, string>, cache: Cache, ms: seq<Member>,
                       compiled: map<Id, Contender>, jobs: seq<(Key, nat)>)
    ensures (forall k :: k in Pairs(ms) ==> Replays(w, f, sources, cache, k)) ==>
              (forall k :: k in Pairs(ms) ==> Stored(w, f, cache, k)) && Complete(cache.matches, ms)
    ensures (forall k :: k in Pairs(ms) ==> Stored(w, f, cache, k)) ==> Complete(cache.matches, ms)
  {
    hide Pairs, ScoreOf, StoredSeed, Complete;
    CompleteIsPairs(cache.matches, ms);
  }
}
