/** The fetcher's cache for one resource as an object (internal/fetcher/fetcher.go 115-226,
    264-280, 330-339). It carries the run of CacheFill it has gone through. */
module CacheFetcher {
  import opened MatchModel
  import opened CacheFill

  /** What a fill leaves in the cache if nobody comes in between: its value, unless it could not
      read the generation and there is one. */
  function Kept(failed: bool, generation: Option<Generation>, value: nat, before: Option<nat>): Option<nat> {
    if failed && generation.Some? && generation.value.count != 0 then before else Some(value)
  }

  class ResourceCache {
    const ttl: Duration
    var now: Time
    var generation: Option<Generation>
    var cached: Option<nat>
    var writes: nat
    ghost var run: Behaviour

    ghost predicate Valid()
      reads this
    {
      && Possible(ttl, run)
      && run.world.now == now && run.world.generation == generation && run.world.cached == cached && run.world.writes == writes
    }

    twostate predicate Steps(move: Move)
      reads this
    {
      run == Extend(old(run), move, run.world) && Next(ttl, old(run).world, run.world, move)
    }

    constructor (ttl: Duration, now: Time, writes: nat)
      ensures Valid() && this.ttl == ttl && run == Begin(CacheFill.World(now, None, None, writes, 0, map[], map[]))
    {
      this.ttl, this.now, this.writes := ttl, now, writes;
      generation, cached := None, None;
      run := Begin(CacheFill.World(now, None, None, writes, 0, map[], map[]));
    }

    /** cacheGeneration: a missing key and a failed read both give 0. */
    method ReadGeneration(ghost fill: nat, failed: bool) returns (count: nat)
      requires Valid() && fill !in run.world.fills
      modifies this`run
      ensures Valid() && Steps(CacheFill.ReadsGeneration(fill, failed))
      ensures count == if failed || generation.None? then 0 else generation.value.count
      ensures run.world.fills == old(run).world.fills[fill := Fill(count, now, None)]
    {
      count := if failed || generation.None? then 0 else generation.value.count;
      ghost var w := run.world;
      run := Extend(run, CacheFill.ReadsGeneration(fill, failed), w.(fills := w.fills[fill := Fill(count, now, None)]));
    }

    /** The database read of a fill; SyncBeatmap writes what the API returned first. */
    method ReadDatabase(ghost fill: nat, upserts: bool) returns (value: nat)
      requires Valid() && fill in run.world.fills && run.world.fills[fill].value.None?
      modifies this`run, this`writes
      ensures Valid() && Steps(CacheFill.ReadsDatabase(fill, upserts))
      ensures value == writes == if upserts then old(writes) + 1 else old(writes)
      ensures run.world.fills == old(run).world.fills[fill := old(run).world.fills[fill].(value := Some(value))]
    {
      if upserts { writes := writes + 1; }
      value := writes;
      ghost var w := run.world;
      run := Extend(run, CacheFill.ReadsDatabase(fill, upserts),
                    w.(writes := writes, fills := w.fills[fill := w.fills[fill].(value := Some(value))]));
    }

    /** cacheIfGeneration: stores only if no invalidation advanced the generation. */
    method CacheIfGeneration(ghost fill: nat, count: nat, value: nat) returns (stored: bool)
      requires Valid() && fill in run.world.fills
      requires run.world.fills[fill].generation == count && run.world.fills[fill].value == Some(value)
      modifies this`run, this`cached
      ensures Valid() && Steps(CacheFill.Stores(fill))
      ensures stored == (count == if generation.None? then 0 else generation.value.count)
      ensures cached == if stored then Some(value) else old(cached)
    {
      var current := if generation.None? then 0 else generation.value.count;
      stored := current == count;
      if stored { cached := Some(value); }
      ghost var w := run.world;
      run := Extend(run, CacheFill.Stores(fill), w.(cached := cached, fills := w.fills - {fill}));
    }

    /** A write of the service layer, which invalidates afterwards. */
    method Write(ghost writer: nat)
      requires Valid() && writer !in run.world.writers
      modifies this`run, this`writes
      ensures Valid() && Steps(CacheFill.Writes(writer)) && writes == old(writes) + 1
      ensures run.world.writers == old(run).world.writers[writer := writes]
    {
      writes := writes + 1;
      ghost var w := run.world;
      run := Extend(run, CacheFill.Writes(writer), w.(writes := writes, writers := w.writers[writer := writes]));
    }

    method Invalidate(ghost writer: nat)
      requires Valid() && writer in run.world.writers
      modifies this`run, this`generation, this`cached
      ensures Valid() && Steps(CacheFill.Invalidates(writer)) && cached == None
      ensures generation.Some?
      ensures generation.value.count == 1 + (if old(generation).None? then 0 else old(generation).value.count)
      ensures generation.value.expiresAt == now + ttl && run.world.settled >= old(run).world.writers[writer]
    {
      var count := if generation.None? then 0 else generation.value.count;
      generation := Some(Generation(count + 1, now + ttl));
      cached := None;
      ghost var w := run.world;
      ghost var settled := if w.settled < w.writers[writer] then w.writers[writer] else w.settled;
      run := Extend(run, CacheFill.Invalidates(writer),
                    w.(generation := generation, cached := cached, settled := settled, writers := w.writers - {writer}));
    }

    ghost method Abandon(fill: nat)
      requires Valid()
      modifies this`run
      ensures Valid() && Steps(CacheFill.Abandons(fill))
      ensures run.world == old(run).world.(fills := old(run).world.fills - {fill})
    {
      run := Extend(run, CacheFill.Abandons(fill), run.world.(fills := run.world.fills - {fill}));
    }

    /** SyncUser and SyncBeatmap: read the generation, upsert what the API returned, fill. */
    method Sync(ghost fill: nat, failed: bool) returns (value: nat)
      requires Valid() && fill !in run.world.fills
      modifies this
      ensures Valid() && value == writes == old(writes) + 1 && run.world.settled == old(run).world.settled
      ensures now == old(now) && generation == old(generation) && cached == Kept(failed, generation, value, old(cached))
      ensures ExpiresSafely(old(run)) ==> ExpiresSafely(run)
    {
      hide Possible, Safe;
      var count := ReadGeneration(fill, failed);
      assert ExpiresSafely(old(run)) ==> ExpiresSafely(run);
      value := ReadDatabase(fill, true);
      assert ExpiresSafely(old(run)) ==> ExpiresSafely(run);
      var _ := CacheIfGeneration(fill, count, value);
    }

    /** GetUser and GetBeatmap: the cache, else the database through a guarded fill, else the
        API. As long as the generation key expires safely, what comes back is no older than
        the last invalidated write. */
    method Get(ghost fill: nat, failed: bool, missing: bool) returns (value: nat)
      requires Valid() && fill !in run.world.fills
      modifies this
      ensures Valid()
      ensures ExpiresSafely(old(run)) ==> ExpiresSafely(run) && old(run).world.settled <= value
      ensures now == old(now) && generation == old(generation)
      ensures if old(cached).Some? then value == old(cached).value && cached == old(cached) && writes == old(writes)
              else
                && value == writes == (if missing then old(writes) + 1 else old(writes))
                && cached == Kept(failed, generation, value, None)
    {
      hide Possible, Safe;
      BehavioursAreCounted(ttl, run);
      if ExpiresSafely(run) { CacheStaysFresh(ttl, run); }
      if cached.Some? { return cached.value; }
      var count := ReadGeneration(fill, failed);
      assert ExpiresSafely(old(run)) ==> ExpiresSafely(run);
      if missing {
        Abandon(fill);
        assert ExpiresSafely(old(run)) ==> ExpiresSafely(run);
        value := Sync(fill, failed);
        return;
      }
      value := ReadDatabase(fill, false);
      assert ExpiresSafely(old(run)) ==> ExpiresSafely(run);
      var _ := CacheIfGeneration(fill, count, value);
    }
  }
}
