/** The generation-guarded cache fill of internal/fetcher/fetcher.go (34-41, 115-226,
    264-280, 330-339) and the writers that invalidate it (internal/service/
    beatmap_service.go 174-181), for one resource.

    A cached value is told apart by the number of database writes it reflects. */
module CacheFill {
  import opened MatchModel
  import Sets

  /** The generation key, which counts invalidations until it expires. */
  datatype Generation = Generation(count: nat, expiresAt: Time)

  /** A lookup that missed: the generation it read and, later, the writes its database read
      reflects. */
  datatype Fill = Fill(generation: nat, startedAt: Time, value: Option<nat>)

  /** `settled` is the last write whose invalidation completed. */
  datatype World = World(
    now: Time, generation: Option<Generation>, cached: Option<nat>, writes: nat, settled: nat,
    fills: map<nat, Fill>, writers: map<nat, nat>)

  /** A missing key reads as 0. */
  function Current(w: World): nat { if w.generation.Some? then w.generation.value.count else 0 }

  /** No cached value reflects a read from before an invalidated write. */
  predicate Fresh(w: World) { w.cached.Some? ==> w.settled <= w.cached.value }

  datatype Move =
    | Passes(time: nat)
    | ReadsGeneration(fill: nat, failed: bool)
    | ReadsDatabase(fill: nat, upserts: bool)
    | Stores(fill: nat)
    | Abandons(fill: nat)
    | Writes(writer: nat)
    | Invalidates(writer: nat)
    | CacheExpires
    | GenerationExpires

  /** cacheIfGenerationScript: compare and store in one step. */
  function Stored(w: World, f: Fill): World
    requires f.value.Some?
  {
    if Current(w) == f.generation then w.(cached := f.value) else w
  }

  /** INCR, EXPIRE and DEL in one transaction. */
  function Invalidated(w: World, ttl: Duration): World {
    w.(generation := Some(Generation(Current(w) + 1, w.now + ttl)), cached := None)
  }

  predicate Next(ttl: Duration, w: World, w': World, move: Move) {
    match move
    case Passes(time) => w' == w.(now := w.now + time)
    case ReadsGeneration(fill, failed) =>
      fill !in w.fills && w' == w.(fills := w.fills[fill := Fill(if failed then 0 else Current(w), w.now, None)])
    case ReadsDatabase(fill, upserts) =>
      && fill in w.fills && w.fills[fill].value.None?
      && var writes := if upserts then w.writes + 1 else w.writes;
         w' == w.(writes := writes, fills := w.fills[fill := w.fills[fill].(value := Some(writes))])
    case Stores(fill) =>
      && fill in w.fills && w.fills[fill].value.Some?
      && w' == Stored(w, w.fills[fill]).(fills := w.fills - {fill})
    case Abandons(fill) => w' == w.(fills := w.fills - {fill})
    case Writes(writer) => writer !in w.writers && w' == w.(writes := w.writes + 1, writers := w.writers[writer := w.writes + 1])
    case Invalidates(writer) =>
      && writer in w.writers
      && var settled := if w.settled < w.writers[writer] then w.writers[writer] else w.settled;
         w' == Invalidated(w, ttl).(settled := settled, writers := w.writers - {writer})
    case CacheExpires => w' == w.(cached := None)
    case GenerationExpires =>
      w.generation.Some? && w.generation.value.expiresAt <= w.now && w' == w.(generation := None)
  }

  predicate Initial(w: World) {
    w.generation.None? && w.cached.None? && w.settled <= w.writes && w.fills == map[] && w.writers == map[]
  }

  datatype Behaviour = Begin(world: World) | Extend(before: Behaviour, move: Move, world: World)

  predicate Possible(ttl: Duration, b: Behaviour) {
    match b
    case Begin(w) => Initial(w)
    case Extend(before, move, w) => Possible(ttl, before) && Next(ttl, before.world, w, move)
  }

  // ----- when a fill is safe

  /** The fill will not store, or nothing it would hide has been invalidated. */
  predicate Safe(w: World, f: Fill) {
    || f.generation < Current(w)
    || (f.generation == Current(w) && (f.value.Some? ==> w.settled <= f.value.value))
  }

  predicate AllSafe(w: World) { forall fill | fill in w.fills :: Safe(w, w.fills[fill]) }

  /** Writers and settled writes are never ahead of the database. */
  predicate Counted(w: World) {
    w.settled <= w.writes && forall writer | writer in w.writers :: w.writers[writer] <= w.writes
  }

  lemma StepIsCounted(ttl: Duration, w: World, w': World, move: Move)
    requires Counted(w) && Next(ttl, w, w', move)
    ensures Counted(w')
  {}

  lemma {:induction false} BehavioursAreCounted(ttl: Duration, b: Behaviour)
    requires Possible(ttl, b)
    ensures Counted(b.world)
  {
    if b.Extend? {
      BehavioursAreCounted(ttl, b.before);
      StepIsCounted(ttl, b.before.world, b.world, b.move);
    }
  }

  /** Without an expiry of the generation key, safe fills stay safe and the cache fresh. */
  lemma StepIsSafe(ttl: Duration, w: World, w': World, move: Move)
    requires Counted(w) && AllSafe(w) && Fresh(w) && Next(ttl, w, w', move) && !move.GenerationExpires?
    ensures AllSafe(w') && Fresh(w')
  {
    if move.Stores? { assert Safe(w, w.fills[move.fill]); }
  }

  /** Every expiry of the generation key finds only fills it leaves safe: ones that read no
      generation and whose value, if read, hides no invalidated write. */
  predicate ExpiresSafely(b: Behaviour) {
    b.Extend? ==> ExpiresSafely(b.before) && (b.move.GenerationExpires? ==> AllSafe(b.world))
  }

  lemma ExpiryIsSafeExactly(w: World, f: Fill)
    ensures Safe(w.(generation := None), f) <==> f.generation == 0 && (f.value.Some? ==> w.settled <= f.value.value)
  {}

  /** The cache never serves a value from before an invalidated write, for every interleaving
      of fills, writes and invalidations, as long as the generation key only expires safely. */
  lemma {:induction false} CacheStaysFresh(ttl: Duration, b: Behaviour)
    requires Possible(ttl, b) && ExpiresSafely(b)
    ensures Fresh(b.world) && AllSafe(b.world)
  {
    if b.Extend? {
      CacheStaysFresh(ttl, b.before);
      BehavioursAreCounted(ttl, b.before);
      if !b.move.GenerationExpires? { StepIsSafe(ttl, b.before.world, b.world, b.move); }
    }
  }

  // ----- and an unsafe fill can always do harm

  predicate Continues(b: Behaviour, b': Behaviour) {
    b' == b || (b'.Extend? && !b'.move.GenerationExpires? && Continues(b, b'.before))
  }

  lemma {:induction false} ContinuesOn(b: Behaviour, b': Behaviour, b'': Behaviour)
    requires Continues(b, b') && Continues(b', b'')
    ensures Continues(b, b'')
  {
    if b'' != b' { ContinuesOn(b, b', b''.before); }
  }

  lemma Does(ttl: Duration, b: Behaviour, move: Move, w: World) returns (b': Behaviour)
    requires Possible(ttl, b) && Next(ttl, b.world, w, move) && !move.GenerationExpires?
    ensures b' == Extend(b, move, w) && Possible(ttl, b') && Continues(b, b')
  {
    b' := Extend(b, move, w);
  }

  lemma FreeWriter(w: World) returns (writer: nat)
    ensures writer !in w.writers
  {
    writer := 0;
    var below := {};
    while writer in w.writers
      invariant below <= w.writers.Keys && |below| == writer && forall k | k in below :: k < writer
      decreases |w.writers| - writer
    {
      assert |w.writers.Keys| == |w.writers|;
      Sets.SubsetIsSmaller(below + {writer}, w.writers.Keys);
      below, writer := below + {writer}, writer + 1;
    }
  }

  // One more invalidated write, which the fills do not notice.
  lemma WriteAndInvalidate(ttl: Duration, b: Behaviour) returns (b': Behaviour)
    requires Possible(ttl, b)
    ensures Possible(ttl, b') && Continues(b, b') && b'.world.fills == b.world.fills
    ensures Current(b'.world) == Current(b.world) + 1 && b'.world.settled >= b.world.writes + 1
  {
    var w := b.world;
    var writer := FreeWriter(w);
    var w1 := w.(writes := w.writes + 1, writers := w.writers[writer := w.writes + 1]);
    var b1 := Does(ttl, b, Writes(writer), w1);
    var settled := if w.settled < w.writes + 1 then w.writes + 1 else w.settled;
    var b2 := Does(ttl, b1, Invalidates(writer), Invalidated(w1, ttl).(settled := settled, writers := w1.writers - {writer}));
    ContinuesOn(b, b1, b2);
    b' := b2;
  }

  lemma {:induction false} CatchUp(ttl: Duration, b: Behaviour, target: nat) returns (b': Behaviour)
    requires Possible(ttl, b) && Current(b.world) < target
    ensures Possible(ttl, b') && Continues(b, b') && b'.world.fills == b.world.fills
    ensures Current(b'.world) == target && b'.world.settled >= b.world.writes + 1
    decreases target - Current(b.world)
  {
    b' := WriteAndInvalidate(ttl, b);
    if Current(b'.world) < target {
      BehavioursAreCounted(ttl, b');
      var b'' := CatchUp(ttl, b', target);
      ContinuesOn(b, b', b'');
      b' := b'';
    }
  }

  lemma StoreIsStale(ttl: Duration, b: Behaviour, fill: nat) returns (b': Behaviour)
    requires Possible(ttl, b) && fill in b.world.fills && b.world.fills[fill].value.Some?
    requires b.world.fills[fill].generation == Current(b.world) && b.world.fills[fill].value.value < b.world.settled
    ensures Possible(ttl, b') && Continues(b, b') && !Fresh(b'.world)
  {
    b' := Does(ttl, b, Stores(fill), Stored(b.world, b.world.fills[fill]).(fills := b.world.fills - {fill}));
  }

  lemma UnsafeFillGoesStale(ttl: Duration, b: Behaviour, fill: nat) returns (b': Behaviour)
    requires Possible(ttl, b) && fill in b.world.fills && !Safe(b.world, b.world.fills[fill])
    ensures Possible(ttl, b') && Continues(b, b') && !Fresh(b'.world)
  {
    var w, f := b.world, b.world.fills[fill];
    BehavioursAreCounted(ttl, b);
    if f.generation == Current(w) {
      b' := StoreIsStale(ttl, b, fill);
    } else {
      var b1 := b;
      if f.value.None? {
        b1 := Does(ttl, b, ReadsDatabase(fill, false), w.(fills := w.fills[fill := f.(value := Some(w.writes))]));
      }
      ReadValuesAreCounted(ttl, b1, fill);
      var b2 := CatchUp(ttl, b1, f.generation);
      var b3 := StoreIsStale(ttl, b2, fill);
      ContinuesOn(b1, b2, b3);
      ContinuesOn(b, b1, b3);
      b' := b3;
    }
  }

  lemma {:induction false} ReadValuesAreCounted(ttl: Duration, b: Behaviour, fill: nat)
    requires Possible(ttl, b) && fill in b.world.fills && b.world.fills[fill].value.Some?
    ensures b.world.fills[fill].value.value <= b.world.writes
  {
    if b.Extend? {
      var w := b.before.world;
      if fill in w.fills && w.fills[fill].value.Some? { ReadValuesAreCounted(ttl, b.before, fill); }
    }
  }

  lemma {:induction false} SafeContinuations(ttl: Duration, b: Behaviour, b': Behaviour)
    requires Possible(ttl, b') && Continues(b, b') && AllSafe(b.world) && Fresh(b.world)
    ensures Possible(ttl, b) && AllSafe(b'.world) && Fresh(b'.world)
  {
    if b' != b {
      SafeContinuations(ttl, b, b'.before);
      BehavioursAreCounted(ttl, b'.before);
      StepIsSafe(ttl, b'.before.world, b'.world, b'.move);
    }
  }

  /** The condition is exact: from any reachable moment with a fresh cache, freshness is
      kept by every continuation without a further expiry if and only if all fills in
      flight are safe. */
  lemma FreshnessIsExact(ttl: Duration, b: Behaviour)
    requires Possible(ttl, b) && Fresh(b.world)
    ensures AllSafe(b.world) <==> forall b' :: Possible(ttl, b') && Continues(b, b') ==> Fresh(b'.world)
  {
    if AllSafe(b.world) {
      forall b' | Possible(ttl, b') && Continues(b, b') ensures Fresh(b'.world) { SafeContinuations(ttl, b, b'); }
    } else {
      var fill :| fill in b.world.fills && !Safe(b.world, b.world.fills[fill]);
      var b' := UnsafeFillGoesStale(ttl, b, fill);
    }
  }

  // ----- a short fill is not enough

  /** Every fill that stores or gives up has lasted less than the key's time to live. */
  predicate FillsAreShort(b: Behaviour, ttl: Duration) {
    b.Extend? ==>
      && FillsAreShort(b.before, ttl)
      && forall fill | fill in b.world.fills :: b.world.now - b.world.fills[fill].startedAt < ttl
  }

  lemma Shortly(ttl: Duration, b: Behaviour, move: Move, w: World) returns (b': Behaviour)
    requires Possible(ttl, b) && FillsAreShort(b, ttl) && Next(ttl, b.world, w, move)
    requires forall fill | fill in w.fills :: w.now - w.fills[fill].startedAt < ttl
    ensures b' == Extend(b, move, w) && Possible(ttl, b') && FillsAreShort(b', ttl)
  {
    b' := Extend(b, move, w);
  }

  // A fill reads generation 1 and the first write just before the key expires.
  lemma FillBeforeExpiry(ttl: Duration) returns (b: Behaviour)
    requires ttl >= 2
    ensures Possible(ttl, b) && FillsAreShort(b, ttl)
    ensures b.world == World(ttl, Some(Generation(1, 1 + ttl)), None, 1, 1, map[0 := Fill(1, ttl, Some(1))], map[])
  {
    b := Begin(World(1, None, None, 0, 0, map[], map[]));
    b := Shortly(ttl, b, Writes(0), World(1, None, None, 1, 0, map[], map[0 := 1]));
    b := Shortly(ttl, b, Invalidates(0), World(1, Some(Generation(1, 1 + ttl)), None, 1, 1, map[], map[]));
    b := Shortly(ttl, b, Passes(ttl - 1), b.world.(now := ttl));
    b := Shortly(ttl, b, ReadsGeneration(0, false), b.world.(fills := map[0 := Fill(1, ttl, None)]));
    b := Shortly(ttl, b, ReadsDatabase(0, false), b.world.(fills := map[0 := Fill(1, ttl, Some(1))]));
  }

  /** A fill need not outlive the generation key to be fooled by it: one that starts just
      before the key expires reads generation 1, and the next invalidation counts 1 again. */
  lemma ShortFillsCanGoStale(ttl: Duration) returns (b: Behaviour)
    requires ttl >= 2
    ensures Possible(ttl, b) && FillsAreShort(b, ttl) && !Fresh(b.world)
  {
    b := FillBeforeExpiry(ttl);
    b := Shortly(ttl, b, Passes(1), b.world.(now := ttl + 1));
    b := Shortly(ttl, b, GenerationExpires, b.world.(generation := None));
    b := Shortly(ttl, b, Writes(0), b.world.(writes := 2, writers := map[0 := 2]));
    b := Shortly(ttl, b, Invalidates(0), b.world.(generation := Some(Generation(1, 2 * ttl + 1)), settled := 2, writers := map[]));
    b := Shortly(ttl, b, Stores(0), b.world.(cached := Some(1), fills := map[]));
  }
}
