/** The content-hash cache over the `urls` table: what a lookup returns when handlers run one at a time,
    and what is left of that when their single reads and writes interleave. */
module ContentHash {
  import opened Wrappers
  import opened Events

  function At(m: map<Url, string>, u: Url): Option<string> {
    if u in m then Some(m[u]) else None
  }

  /** Python's truth value of an optional string. */
  predicate Truthy(s: Option<string>) {
    s.Some? && s.value != ""
  }

  // ---------------------------------------------------------------- one handler at a time

  class ContentHashStore {
    const hasRedis: bool
    /** content_hash by normalized_url; the cleaner's column. */
    var table: map<Url, string>
    /** The live cache keys; none without Redis. */
    var cache: map<Url, string>

    ghost predicate Valid()
      reads this
    {
      !hasRedis ==> cache == map[]
    }

    /** The cache does not contradict the table about u. */
    predicate Coherent(u: Url)
      reads this
    {
      Truthy(At(cache, u)) ==> At(cache, u) == At(table, u)
    }

    constructor (hasRedis: bool)
      ensures Valid() && this.hasRedis == hasRedis && table == map[] && forall u :: Coherent(u)
    {
      this.hasRedis, table, cache := hasRedis, map[], map[];
    }

    /** A lookup returns the table's hash exactly when the cache does not contradict the table, and it keeps
        the cache as coherent as it was. */
    method GetHash(u: Url) returns (hash: Option<string>)
      requires Valid()
      modifies `cache
      ensures Valid()
      ensures hash == At(table, u) <==> old(Coherent(u))
      ensures hash == if Truthy(At(old(cache), u)) then At(old(cache), u) else At(table, u)
      ensures cache == if hasRedis && !Truthy(At(old(cache), u)) && Truthy(At(table, u))
                       then old(cache)[u := table[u]] else old(cache)
      ensures forall v :: Coherent(v) <==> old(Coherent(v))
    {
      if hasRedis {
        var cached := At(cache, u);
        if Truthy(cached) {
          return cached;
        }
      }
      var row := At(table, u);
      if Truthy(row) && hasRedis {
        cache := cache[u := row.value];
      }
      return row;
    }

    method SetHash(u: Url, hash: string)
      modifies `cache
      ensures cache == if hasRedis then old(cache)[u := hash] else old(cache)
    {
      if hasRedis {
        cache := cache[u := hash];
      }
    }

    /** The cleaner: its transaction stores the checksum, then the cache is set, unless that raises. The cache is
        coherent afterwards exactly when it was set, or held nothing for u but the new checksum. */
    method Cleaned(u: Url, checksum: string, cacheRaises: bool)
      requires Valid()
      modifies this
      ensures Valid()
      ensures table == old(table)[u := checksum]
      ensures cache == if hasRedis && !cacheRaises then old(cache)[u := checksum] else old(cache)
      ensures Coherent(u) <==> !cacheRaises || !Truthy(old(At(cache, u))) || old(At(cache, u)) == Some(checksum)
      ensures forall v :: v != u ==> (Coherent(v) <==> old(Coherent(v)))
    {
      table := table[u := checksum];
      if !cacheRaises {
        SetHash(u, checksum);
      }
    }

    method Expire(u: Url)
      requires Valid()
      modifies `cache
      ensures Valid() && Coherent(u) && cache == old(cache) - {u}
      ensures forall v :: v != u ==> (Coherent(v) <==> old(Coherent(v)))
    {
      cache := cache - {u};
    }
  }

  // ---------------------------------------------------------------- single reads and writes

  /** A lookup that missed the cache, one about to fill it, a cleaner about to set it. */
  datatype Task = Reading(url: Url) | Filling(url: Url, hash: string) | Caching(url: Url, hash: string)

  datatype Lookup = Lookup(url: Url, hash: Option<string>)

  /** `committed` holds every (URL, checksum) a cleaner ever committed, `lookups` what every lookup returned. */
  datatype World = World(
    table: map<Url, string>, cache: map<Url, string>, tasks: seq<Task>,
    committed: set<(Url, string)>, lookups: seq<Lookup>)

  const EMPTY_WORLD := World(map[], map[], [], {}, [])

  datatype Move =
    | BeginLookup(url: Url)
    | CommitClean(url: Url, checksum: string)
    | Continue(task: nat)
    | Die(task: nat)
    | ExpireKey(url: Url)

  function Returning(w: World, u: Url, hash: Option<string>): World {
    w.(lookups := w.lookups + [Lookup(u, hash)])
  }

  function Without(tasks: seq<Task>, i: nat): seq<Task>
    requires i < |tasks|
  {
    tasks[..i] + tasks[i + 1..]
  }

  function DoContinue(w: World, i: nat): World
    requires i < |w.tasks|
  {
    match w.tasks[i]
    case Reading(u) =>
      var row := At(w.table, u);
      Returning(w.(tasks := if Truthy(row) then w.tasks[i := Filling(u, row.value)] else Without(w.tasks, i)), u, row)
    case Filling(u, hash) => w.(cache := w.cache[u := hash], tasks := Without(w.tasks, i))
    case Caching(u, hash) => w.(cache := w.cache[u := hash], tasks := Without(w.tasks, i))
  }

  function Do(w: World, move: Move): World {
    match move
    case BeginLookup(u) =>
      if Truthy(At(w.cache, u)) then Returning(w, u, At(w.cache, u)) else w.(tasks := w.tasks + [Reading(u)])
    case CommitClean(u, checksum) =>
      w.(table := w.table[u := checksum], committed := w.committed + {(u, checksum)},
         tasks := w.tasks + [Caching(u, checksum)])
    case Continue(i) => if i < |w.tasks| then DoContinue(w, i) else w
    case Die(i) => if i < |w.tasks| then w.(tasks := Without(w.tasks, i)) else w
    case ExpireKey(u) => w.(cache := w.cache - {u})
  }

  function Play(w: World, moves: seq<Move>): World {
    if moves == [] then w else Do(Play(w, moves[..|moves| - 1]), moves[|moves| - 1])
  }

  predicate TaskOk(w: World, t: Task) {
    t.Reading? || (t.url, t.hash) in w.committed
  }

  /** Whatever is stored, cached, in hand or returned was committed before, for the same URL. */
  ghost predicate OnlyCommitted(w: World) {
    && (forall u :: u in w.table ==> (u, w.table[u]) in w.committed)
    && (forall u :: u in w.cache ==> (u, w.cache[u]) in w.committed)
    && (forall i :: 0 <= i < |w.tasks| ==> TaskOk(w, w.tasks[i]))
    && (forall i :: 0 <= i < |w.lookups| && w.lookups[i].hash.Some? ==>
          (w.lookups[i].url, w.lookups[i].hash.value) in w.committed)
  }

  lemma DoKeeps(w: World, move: Move)
    requires OnlyCommitted(w)
    ensures OnlyCommitted(Do(w, move))
  {
    if move.CommitClean? {
      assert forall t :: TaskOk(w, t) ==> TaskOk(Do(w, move), t);
    }
  }

  /** Under any interleaving, expiry and death of handlers: a lookup only returns hashes that a cleaner had
      committed for that URL, so a page is only called unchanged when its checksum was committed before. */
  lemma {:induction false} LookupsReturnCommitted(moves: seq<Move>)
    ensures OnlyCommitted(Play(EMPTY_WORLD, moves))
  {
    if moves != [] {
      LookupsReturnCommitted(moves[..|moves| - 1]);
      DoKeeps(Play(EMPTY_WORLD, moves[..|moves| - 1]), moves[|moves| - 1]);
    }
  }

  /** The moves of a lookup that runs on its own. */
  function LookingUp(w: World, u: Url): seq<Move> {
    if Truthy(At(w.cache, u)) then [BeginLookup(u)]
    else if Truthy(At(w.table, u)) then [BeginLookup(u), Continue(0), Continue(0)]
    else [BeginLookup(u), Continue(0)]
  }

  /** Undisturbed, the moves are what the store's methods do: a lookup returns the cached hash, or else the table's,
      which it caches; a commit is followed by the cache write, or by a death; a key expires. */
  lemma {:induction false} MovesAreMethods(w: World, u: Url, checksum: string)
    requires w.tasks == []
    ensures var cached, row := At(w.cache, u), At(w.table, u);
            var hash := if Truthy(cached) then cached else row;
            Play(w, LookingUp(w, u)) ==
            w.(lookups := w.lookups + [Lookup(u, hash)],
               cache := if !Truthy(cached) && Truthy(row) then w.cache[u := w.table[u]] else w.cache)
    ensures var committed := w.(table := w.table[u := checksum], committed := w.committed + {(u, checksum)});
            && Play(w, [CommitClean(u, checksum), Continue(0)]) == committed.(cache := w.cache[u := checksum])
            && Play(w, [CommitClean(u, checksum), Die(0)]) == committed
    ensures Play(w, [ExpireKey(u)]) == w.(cache := w.cache - {u})
  {
    var begin, commit, expire: Move := BeginLookup(u), CommitClean(u, checksum), ExpireKey(u);
    PlayOne(w, begin);
    PlayOne(w, commit);
    PlayOne(w, expire);
    PlayTwo(w, begin, Continue(0));
    PlayTwo(w, commit, Continue(0));
    PlayTwo(w, commit, Die(0));
    PlayThen(w, [begin, Continue(0)], Continue(0));
    assert [begin, Continue(0)] + [Continue(0)] == [begin, Continue(0), Continue(0)];
  }

  lemma PlayOne(w: World, a: Move)
    ensures Play(w, [a]) == Do(w, a)
  {
    assert [a][..0] == [];
  }

  lemma PlayTwo(w: World, a: Move, b: Move)
    ensures Play(w, [a, b]) == Do(Do(w, a), b)
  {
    PlayOne(w, a);
    assert [a, b][..1] == [a];
  }

  // ---------------------------------------------------------------- when lookups agree with the table

  /** No handler holds a non-empty hash for u other than the table's. */
  predicate Agrees(w: World, u: Url, t: Task) {
    t.Reading? || t.url != u || t.hash == "" || Some(t.hash) == At(w.table, u)
  }

  /** Neither the cache nor any handler about to write it contradicts the table about u. */
  predicate Fresh(w: World, u: Url) {
    && (Truthy(At(w.cache, u)) ==> At(w.cache, u) == At(w.table, u))
    && forall i :: 0 <= i < |w.tasks| ==> Agrees(w, u, w.tasks[i])
  }

  predicate CommitsNothing(moves: seq<Move>, u: Url) {
    forall i :: 0 <= i < |moves| && moves[i].CommitClean? ==> moves[i].url != u
  }

  /** All lookups of u after the first n returned what the table holds. */
  predicate LookupsAgree(w: World, u: Url, n: nat) {
    forall i :: n <= i < |w.lookups| && w.lookups[i].url == u ==> w.lookups[i].hash == At(w.table, u)
  }

  lemma FreshStep(w: World, u: Url, move: Move, n: nat)
    requires Fresh(w, u) && LookupsAgree(w, u, n) && (move.CommitClean? ==> move.url != u)
    ensures Fresh(Do(w, move), u) && LookupsAgree(Do(w, move), u, n)
    ensures At(Do(w, move).table, u) == At(w.table, u)
  {
    var w' := Do(w, move);
    forall i | 0 <= i < |w'.tasks|
      ensures Agrees(w', u, w'.tasks[i])
    {
      if i < |w.tasks| {
        assert Agrees(w, u, w.tasks[i]);
      }
      if i + 1 < |w.tasks| {
        assert Agrees(w, u, w.tasks[i + 1]);
      }
    }
    if move.Continue? && move.task < |w.tasks| {
      assert Agrees(w, u, w.tasks[move.task]);
    }
  }

  lemma {:induction false} FreshPlay(w: World, u: Url, moves: seq<Move>)
    requires Fresh(w, u) && CommitsNothing(moves, u)
    ensures Fresh(Play(w, moves), u) && LookupsAgree(Play(w, moves), u, |w.lookups|)
    ensures At(Play(w, moves).table, u) == At(w.table, u)
  {
    if moves != [] {
      FreshPlay(w, u, moves[..|moves| - 1]);
      FreshStep(Play(w, moves[..|moves| - 1]), u, moves[|moves| - 1], |w.lookups|);
    }
  }

  /** Moves that bring a contradiction to light: the handler writes its hash, then a lookup hits the cache. */
  function Exposing(w: World, u: Url): seq<Move> {
    if Truthy(At(w.cache, u)) && At(w.cache, u) != At(w.table, u) then [BeginLookup(u)]
    else [Continue(FirstStale(w, u)), BeginLookup(u)]
  }

  function FirstStale(w: World, u: Url): (i: nat)
    ensures (exists k :: 0 <= k < |w.tasks| && !Agrees(w, u, w.tasks[k])) ==>
              i < |w.tasks| && !Agrees(w, u, w.tasks[i])
  {
    FirstStaleFrom(w, u, 0)
  }

  function FirstStaleFrom(w: World, u: Url, from: nat): (i: nat)
    ensures (exists k :: from <= k < |w.tasks| && !Agrees(w, u, w.tasks[k])) ==>
              i < |w.tasks| && !Agrees(w, u, w.tasks[i])
    decreases |w.tasks| - from
  {
    if from >= |w.tasks| || !Agrees(w, u, w.tasks[from]) then from else FirstStaleFrom(w, u, from + 1)
  }

  lemma StaleIsExposed(w: World, u: Url)
    requires !Fresh(w, u)
    ensures CommitsNothing(Exposing(w, u), u) && !LookupsAgree(Play(w, Exposing(w, u)), u, |w.lookups|)
    ensures At(Play(w, Exposing(w, u)).table, u) == At(w.table, u)
  {
    var moves := Exposing(w, u);
    if |moves| == 1 {
      assert Play(w, moves) == Do(Play(w, []), moves[0]);
      assert Play(w, moves).lookups[|w.lookups|] == Lookup(u, At(w.cache, u));
    } else {
      var i := FirstStale(w, u);
      var w1 := Do(w, Continue(i));
      assert moves[..1] == [Continue(i)] && Play(w, moves[..1]) == Do(Play(w, []), Continue(i));
      assert Play(w, moves) == Do(w1, BeginLookup(u));
      assert Play(w, moves).lookups[|w.lookups|] == Lookup(u, Some(w.tasks[i].hash));
    }
  }

  /** Exactly when lookups can be trusted: until the next commit for u, all lookups of u, in every interleaving,
      return the table's hash if and only if neither the cache nor a handler about to write it holds another. */
  lemma {:induction false} LookupsTrustedIff(w: World, u: Url)
    ensures Fresh(w, u) <==>
            forall moves :: CommitsNothing(moves, u) ==> LookupsAgree(Play(w, moves), u, |w.lookups|)
  {
    if Fresh(w, u) {
      forall moves | CommitsNothing(moves, u)
        ensures LookupsAgree(Play(w, moves), u, |w.lookups|)
      {
        FreshPlay(w, u, moves);
      }
    } else {
      StaleIsExposed(w, u);
    }
  }

  // ---------------------------------------------------------------- two ways to lose freshness

  lemma PlayThen(w: World, moves: seq<Move>, next: Move)
    ensures Play(w, moves + [next]) == Do(Play(w, moves), next)
  {
    assert (moves + [next])[..|moves|] == moves;
  }

  /** One handler at a time: the cache write after the second commit raises, and the handler catches it. */
  function CacheWriteRaises(u: Url, older: string, newer: string): seq<Move> {
    [CommitClean(u, older), Continue(0), CommitClean(u, newer), Die(0), BeginLookup(u)]
  }

  lemma RaisedWriteIsStale(u: Url, older: string, newer: string)
    requires older != "" && older != newer
    ensures var w := Play(EMPTY_WORLD, CacheWriteRaises(u, older, newer));
            && w.tasks == [] && At(w.table, u) == Some(newer) && w.lookups == [Lookup(u, Some(older))]
  {
    var m := CacheWriteRaises(u, older, newer);
    var w2 := World(map[u := older], map[u := older], [], {(u, older)}, []);
    PlayThen(EMPTY_WORLD, [], m[0]);
    PlayThen(EMPTY_WORLD, [m[0]], m[1]);
    assert Play(EMPTY_WORLD, [m[0], m[1]]) == w2 by {
      assert [m[0]] + [m[1]] == [m[0], m[1]] && [] + [m[0]] == [m[0]];
    }
    TwoMoreThenLookup(w2, [m[0], m[1]], m[2], m[3], m[4]);
    assert [m[0], m[1]] + [m[2]] + [m[3]] + [m[4]] == m;
  }

  lemma TwoMoreThenLookup(w: World, done: seq<Move>, a: Move, b: Move, c: Move)
    requires Play(EMPTY_WORLD, done) == w
    ensures Play(EMPTY_WORLD, done + [a] + [b] + [c]) == Do(Do(Do(w, a), b), c)
  {
    PlayThen(EMPTY_WORLD, done, a);
    PlayThen(EMPTY_WORLD, done + [a], b);
    PlayThen(EMPTY_WORLD, done + [a] + [b], c);
  }

  /** Interleaved: a lookup reads the table, a cleaner commits and caches a new hash, the lookup fills the cache. */
  function LateFill(u: Url, older: string, newer: string): seq<Move> {
    [CommitClean(u, older), Die(0), BeginLookup(u), Continue(0), CommitClean(u, newer), Continue(1), Continue(0),
     BeginLookup(u)]
  }

  /** Where the second commit finds the lookup. */
  function BeforeFill(u: Url, older: string, newer: string): World {
    World(map[u := newer], map[], [Filling(u, older), Caching(u, newer)], {(u, older), (u, newer)},
          [Lookup(u, Some(older))])
  }

  /** The first cleaner dies before its cache write. */
  lemma DeadAfterCommit(u: Url, hash: string)
    ensures Play(EMPTY_WORLD, [CommitClean(u, hash), Die(0)]) == World(map[u := hash], map[], [], {(u, hash)}, [])
  {
    var commit: Move := CommitClean(u, hash);
    PlayThen(EMPTY_WORLD, [], commit);
    PlayThen(EMPTY_WORLD, [commit], Die(0));
    assert [commit] + [Die(0)] == [commit, Die(0)] && [] + [commit] == [commit];
  }

  lemma LateFillStarts(u: Url, older: string, newer: string)
    requires older != ""
    ensures Play(EMPTY_WORLD, LateFill(u, older, newer)[..5]) == BeforeFill(u, older, newer)
  {
    var m := LateFill(u, older, newer);
    var w2 := World(map[u := older], map[], [], {(u, older)}, []);
    DeadAfterCommit(u, older);
    TwoMoreThenLookup(w2, [m[0], m[1]], m[2], m[3], m[4]);
    assert [m[0], m[1]] + [m[2]] + [m[3]] + [m[4]] == m[..5];
  }

  lemma LateFillIsStale(u: Url, older: string, newer: string)
    requires older != "" && older != newer
    ensures var w := Play(EMPTY_WORLD, LateFill(u, older, newer));
            && w.tasks == [] && At(w.table, u) == Some(newer)
            && w.lookups == [Lookup(u, Some(older)), Lookup(u, Some(older))]
  {
    var m, w5 := LateFill(u, older, newer), BeforeFill(u, older, newer);
    LateFillStarts(u, older, newer);
    TwoMoreThenLookup(w5, m[..5], m[5], m[6], m[7]);
    assert Do(w5, m[5]).tasks == [Filling(u, older)];
    assert m[..5] + [m[5]] + [m[6]] + [m[7]] == m;
  }
}
