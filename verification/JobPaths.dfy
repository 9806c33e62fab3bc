/** What workers can always do (internal/persistence/irc_jobs.go 294-507): whatever the queue
    holds, one worker can clear what stands before an open job and bring the job in flight. */
module JobPaths {
  import opened MatchModel
  import opened JobDispatch
  import Q = IrcJobs
  import Sets

  lemma Works(x: Dispatch, posts: Posts, move: Q.Move, w: Q.World) returns (x': Dispatch)
    requires Happens(x, posts) && Q.Next(x.queue.world, w, move) && !move.Enqueues?
    ensures Happens(x', posts) && x'.publishers == x.publishers && x'.queue.world == w
  {
    hide Q.Next;
    HappensPossibly(x, posts);
    x' := Worked(x, x.publishers, Q.Extend(x.queue, move, w));
  }

  /** A free worker claims a due job that nothing else precedes, once it can lock the channel. */
  lemma Claimed(x: Dispatch, posts: Posts, who: nat, id: Q.JobId, token: Q.Token, now: Time, until: Time)
    returns (x': Dispatch)
    requires Happens(x, posts) && who in x.queue.world.workers && x.queue.world.workers[who].Free?
    requires var w := x.queue.world;
             && Q.IsHead(w.jobs, id) && Q.Due(w.jobs[id], now) && Q.CanLock(w.locks, w.jobs[id].channel, now)
             && token !in w.issued
    ensures Happens(x', posts) && x'.publishers == x.publishers
    ensures var w := x.queue.world;
            x'.queue.world == Q.World(
              Q.Taken(w.jobs, id, token, until), w.locks[w.jobs[id].channel := Q.Lock(token, until)], w.issued + {token},
              w.spent + {token}, w.workers[who := Q.Holding(id, token)])
  {
    hide Happens, Q.IsHead, Q.Due;
    var w := x.queue.world;
    Q.HeadIsOpen(w.jobs, id);
    x' := Works(x, posts, Q.Lists(who, now, until, [id]), Q.SetWorker(w, who, Q.Trying(now, until, [id])));
    var locks := w.locks[w.jobs[id].channel := Q.Lock(token, until)];
    var locked := w.(locks := locks, issued := w.issued + {token});
    x' := Works(x', posts, Q.TakesLock(who, token), Q.SetWorker(locked, who, Q.Locked(now, until, [id], token)));
    x' := Works(x', posts, Q.Rereads(who, Some(id)),
                Q.SetWorker(locked, who, Q.Seen(now, until, [id], token, w.jobs[id].status)));
    x' := Works(x', posts, Q.Claims(who), Q.SetWorker(
      locked.(jobs := Q.Taken(w.jobs, id, token, until), spent := w.spent + {token}), who, Q.Holding(id, token)));
  }

  // ----- the first open job of a channel

  lemma {:induction false} FreshToken(issued: set<Q.Token>) returns (bound: nat)
    ensures forall token | token in issued :: |token| < bound
    decreases |issued|
  {
    bound := 0;
    if issued != {} {
      var token :| token in issued;
      bound := FreshToken(issued - {token});
      if bound <= |token| { bound := |token| + 1; }
    }
  }

  /** Only this job has changed; it is being sent, with a token of its own. */
  predicate Sending(w: Q.World, w': Q.World, id: Q.JobId) {
    && id in w.jobs && id in w'.jobs && w'.jobs == w.jobs[id := w'.jobs[id]]
    && Q.SamePlace(w.jobs[id], w'.jobs[id]) && w'.jobs[id].status.JobSending? && w'.jobs[id].token.Some?
    && w'.workers.Keys == w.workers.Keys
  }

  // The job is made due, if only a retry can, and the worker is free.
  lemma MadeReady(x: Dispatch, posts: Posts, who: nat, id: Q.JobId) returns (x': Dispatch)
    requires Happens(x, posts) && who in x.queue.world.workers && Q.IsHead(x.queue.world.jobs, id)
    ensures Happens(x', posts) && x'.publishers == x.publishers
    ensures var w, w' := x.queue.world, x'.queue.world;
            && id in w.jobs && w'.locks == w.locks && w'.issued == w.issued && w'.workers == w.workers[who := Q.Free]
            && id in w'.jobs && w'.jobs == w.jobs[id := w'.jobs[id]] && Q.SamePlace(w.jobs[id], w'.jobs[id])
            && Q.IsHead(w'.jobs, id) && !(w'.jobs[id].status.JobFailed?)
  {
    hide Happens;
    var w := x.queue.world;
    var free := Q.SetWorker(w, who, Q.Free);
    x' := Works(x, posts, Q.Stops(who), free);
    if w.jobs[id].status.JobFailed? {
      x' := Works(x', posts, Q.Retries(id, w.jobs[id].channel, 0),
                  free.(jobs := Q.Retried(w.jobs, id, w.jobs[id].channel, 0)));
    }
  }

  lemma HeadBrought(x: Dispatch, posts: Posts, who: nat, id: Q.JobId) returns (x': Dispatch)
    requires Happens(x, posts) && who in x.queue.world.workers && Q.IsHead(x.queue.world.jobs, id)
    ensures Happens(x', posts) && x'.publishers == x.publishers && Sending(x.queue.world, x'.queue.world, id)
  {
    hide Happens, Q.IsHead;
    x' := MadeReady(x, posts, who, id);
    var w := x'.queue.world;
    Q.HeadIsOpen(w.jobs, id);
    var now := w.jobs[id].nextTryAt;
    if now < w.jobs[id].leaseUntil { now := w.jobs[id].leaseUntil; }
    if now < w.jobs[id].ackDeadline { now := w.jobs[id].ackDeadline; }
    if w.jobs[id].channel in w.locks && now < w.locks[w.jobs[id].channel].until { now := w.locks[w.jobs[id].channel].until; }
    var bound := FreshToken(w.issued);
    var token := seq(bound + 1, _ => 'x');
    x' := Claimed(x', posts, who, id, token, now, now + 1);
  }

  // ----- any open job

  function OpenBefore(jobs: Q.Jobs, id: Q.JobId): set<Q.JobId>
    requires id in jobs
  {
    set k | k in jobs && jobs[k].channel == jobs[id].channel && Q.Before(jobs[k], jobs[id]) && !Q.Terminal(jobs[k])
  }

  predicate Ahead(jobs: Q.Jobs, k: Q.JobId, id: Q.JobId)
    requires k in jobs && id in jobs
  {
    jobs[k].channel == jobs[id].channel && Q.Before(jobs[k], jobs[id])
  }

  /** The job is being sent; only jobs ahead of it have changed besides, and none reopened. */
  ghost predicate Brought(w: Q.World, w': Q.World, id: Q.JobId) {
    && id in w.jobs && w'.jobs.Keys == w.jobs.Keys && w'.workers.Keys == w.workers.Keys
    && w'.jobs[id].status.JobSending? && w'.jobs[id].token.Some?
    && OnlyAhead(w.jobs, w'.jobs, id)
  }

  ghost predicate OnlyAhead(jobs: Q.Jobs, jobs': Q.Jobs, id: Q.JobId)
    requires id in jobs && jobs'.Keys == jobs.Keys
  {
    forall k | k in jobs ::
      && Q.SamePlace(jobs[k], jobs'[k])
      && (Q.Terminal(jobs[k]) ==> jobs'[k] == jobs[k])
      && (k != id && !Ahead(jobs, k, id) ==> jobs'[k] == jobs[k])
  }

  // The token says whose job it is, and its holder may end it.
  lemma Acknowledged(x: Dispatch, posts: Posts, id: Q.JobId) returns (x': Dispatch)
    requires Happens(x, posts) && id in x.queue.world.jobs
    requires x.queue.world.jobs[id].status.JobSending? && x.queue.world.jobs[id].token.Some?
    ensures Happens(x', posts) && x'.publishers == x.publishers
    ensures var w, w' := x.queue.world, x'.queue.world;
            && w'.workers == w.workers && id in w'.jobs && w'.jobs == w.jobs[id := w'.jobs[id]]
            && Q.SamePlace(w.jobs[id], w'.jobs[id]) && Q.Terminal(w'.jobs[id])
  {
    hide Happens;
    var w := x.queue.world;
    var call := Q.Ack(id, w.jobs[id].token.value);
    x' := Works(x, posts, Q.Calls(call), w.(jobs := Q.Called(w.jobs, call)));
  }

  lemma FewerBefore(jobs: Q.Jobs, k: Q.JobId, id: Q.JobId)
    requires id in jobs && k in OpenBefore(jobs, id)
    ensures |OpenBefore(jobs, k)| < |OpenBefore(jobs, id)|
  {
    assert OpenBefore(jobs, k) <= OpenBefore(jobs, id) - {k};
    Sets.SubsetIsSmaller(OpenBefore(jobs, k), OpenBefore(jobs, id) - {k});
  }

  lemma FewerAfter(jobs: Q.Jobs, jobs': Q.Jobs, k: Q.JobId, id: Q.JobId)
    requires id in jobs && k in OpenBefore(jobs, id) && jobs'.Keys == jobs.Keys && OnlyAhead(jobs, jobs', k)
    requires Q.Terminal(jobs'[k])
    ensures |OpenBefore(jobs', id)| < |OpenBefore(jobs, id)|
  {
    assert OpenBefore(jobs', id) <= OpenBefore(jobs, id) - {k};
    Sets.SubsetIsSmaller(OpenBefore(jobs', id), OpenBefore(jobs, id) - {k});
  }

  lemma AheadChains(jobs: Q.Jobs, jobs': Q.Jobs, jobs'': Q.Jobs, k: Q.JobId, id: Q.JobId)
    requires id in jobs && k in jobs && Ahead(jobs, k, id) && jobs'.Keys == jobs.Keys && jobs''.Keys == jobs.Keys
    requires OnlyAhead(jobs, jobs', k) && OnlyAhead(jobs', jobs'', id)
    ensures OnlyAhead(jobs, jobs'', id)
  {}

  lemma AckedIsAhead(jobs: Q.Jobs, jobs': Q.Jobs, jobs'': Q.Jobs, k: Q.JobId)
    requires k in jobs && jobs'.Keys == jobs.Keys && OnlyAhead(jobs, jobs', k) && !Q.Terminal(jobs[k])
    requires jobs''.Keys == jobs.Keys && jobs'' == jobs'[k := jobs''[k]] && Q.SamePlace(jobs'[k], jobs''[k])
    ensures OnlyAhead(jobs, jobs'', k)
  {}

  /** From any dispatch with a worker, any open job can be brought in flight by workers alone. */
  lemma {:induction false} Bring(x: Dispatch, posts: Posts, who: nat, id: Q.JobId) returns (x': Dispatch)
    requires Happens(x, posts) && who in x.queue.world.workers
    requires id in x.queue.world.jobs && !Q.Terminal(x.queue.world.jobs[id])
    ensures Happens(x', posts) && x'.publishers == x.publishers && Brought(x.queue.world, x'.queue.world, id)
    decreases |OpenBefore(x.queue.world.jobs, id)|
  {
    hide Happens, OnlyAhead, Q.SamePlace, Q.IsHead;
    var jobs := x.queue.world.jobs;
    if OpenBefore(jobs, id) == {} {
      NothingBefore(jobs, id);
      x' := HeadBrought(x, posts, who, id);
      SendingIsBrought(x.queue.world, x'.queue.world, id);
    } else {
      var k :| k in OpenBefore(jobs, id);
      FewerBefore(jobs, k, id);
      x' := Bring(x, posts, who, k);
      var jobs1 := x'.queue.world.jobs;
      x' := Acknowledged(x', posts, k);
      var jobs2 := x'.queue.world.jobs;
      AckedIsAhead(jobs, jobs1, jobs2, k);
      FewerAfter(jobs, jobs2, k, id);
      StaysOpen(jobs, jobs2, k, id);
      x' := Bring(x', posts, who, id);
      AheadChains(jobs, jobs2, x'.queue.world.jobs, k, id);
    }
  }

  lemma NothingBefore(jobs: Q.Jobs, id: Q.JobId)
    requires id in jobs && !Q.Terminal(jobs[id]) && OpenBefore(jobs, id) == {}
    ensures Q.IsHead(jobs, id)
  {
    forall k | k in jobs && jobs[k].channel == jobs[id].channel && Q.Before(jobs[k], jobs[id]) ensures Q.Terminal(jobs[k]) {
      assert k !in OpenBefore(jobs, id);
    }
  }

  lemma SendingIsBrought(w: Q.World, w': Q.World, id: Q.JobId)
    requires Sending(w, w', id) && !Q.Terminal(w.jobs[id])
    ensures Brought(w, w', id)
  {}

  lemma StaysOpen(jobs: Q.Jobs, jobs': Q.Jobs, k: Q.JobId, id: Q.JobId)
    requires id in jobs && k in OpenBefore(jobs, id) && jobs'.Keys == jobs.Keys && OnlyAhead(jobs, jobs', k)
    ensures jobs'[id] == jobs[id]
  {}
}
