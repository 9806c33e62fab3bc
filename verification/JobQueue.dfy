/** The IRC job store as an object (internal/persistence/irc_jobs.go 266-507) and one pass of a
    worker over it (internal/irc/worker.go 113-205). The queue carries the protocol run it
    has gone through, so that what IrcJobs proves of runs holds of the object. */
module JobQueues {
  import opened MatchModel
  import opened IrcJobs

  const CANDIDATE_LIMIT := 64
  const MAX_AUTOMATIC_ATTEMPTS := 5

  // ----- what a job's fields mean for the workers

  /** From a moment on every worker finds the job due. */
  ghost predicate DueFrom(j: Job, at: Time) { forall now :: Due(j, now) <==> at <= now }

  ghost predicate NeverDue(j: Job) { forall now :: !Due(j, now) }

  /** Somebody holds the channel's lock and the lease on it runs. */
  predicate HeldLock(locks: Locks, channel: Channel, now: Time) { channel in locks && now < locks[channel].until }

  /** What a matching call makes of a job: sent jobs wait for their acknowledgement, failed ones
      for the retry, and rejected, acknowledged and cancelled ones are never due by themselves. */
  ghost predicate Ends(j: Job, j': Job, call: Call) {
    && SamePlace(j, j')
    && match call
       case MarkSent(_, _, deadline) =>
         j'.status.JobSent? && j'.token == j.token && j'.attempts == j.attempts && DueFrom(j', deadline)
       case Ack(_, _) => j'.status.JobAcknowledged? && j'.token.None? && NeverDue(j')
       case Fail(_, _, retryAt) =>
         j'.status.JobFailed? && j'.token.None? && j'.attempts == j.attempts + 1 && DueFrom(j', retryAt)
       case Reject(_, _) => j'.status.JobFailed? && j'.token.None? && j'.attempts == j.attempts + 1 && NeverDue(j')
       case Cancel(_, _) => j'.status.JobCancelled? && j'.token.None? && NeverDue(j')
  }

  lemma CallEnds(jobs: Jobs, call: Call)
    requires Matches(jobs, call)
    ensures call.id in jobs && Called(jobs, call) == jobs[call.id := Called(jobs, call)[call.id]]
    ensures Ends(jobs[call.id], Called(jobs, call)[call.id], call)
    ensures Called(jobs, call)[call.id].channel == jobs[call.id].channel
  {}

  lemma CallsMatch(jobs: Jobs, call: Call)
    ensures Matches(jobs, call) <==>
              && call.id in jobs && jobs[call.id].token == Some(call.token)
              && (jobs[call.id].status.JobSending? || (jobs[call.id].status.JobSent? && !call.MarkSent? && !call.Cancel?))
    ensures !Matches(jobs, call) ==> Called(jobs, call) == jobs
  {}

  predicate HoldsLock(locks: Locks, channel: Channel, token: Token) { channel in locks && locks[channel].token == token }

  datatype ClaimedJob = ClaimedJob(id: JobId, token: Token, status: Status, attempts: nat)

  class JobQueue {
    var jobs: Jobs
    var locks: Locks
    ghost var run: Behaviour

    ghost predicate Valid()
      reads this
    {
      Possible(run) && run.world.jobs == jobs && run.world.locks == locks
    }

    /** The step the store has just taken, from the state before it. */
    twostate predicate Steps(move: Move)
      reads this
    {
      run == Extend(old(run), move, run.world) && Next(old(run).world, run.world, move)
    }

    constructor (ghost workers: set<nat>)
      ensures Valid() && jobs == map[] && run.world.workers == map who | who in workers :: Free
    {
      jobs, locks := map[], map[];
      run := Begin(IrcJobs.World(map[], map[], {}, {}, map who | who in workers :: Free));
    }

    /** Enqueue inserts a job once; callers add to a channel at its end. */
    method Enqueue(id: JobId, job: Job)
      requires Valid() && (id !in jobs ==> EntersInOrder(jobs, job))
      modifies this
      ensures Valid() && Steps(Enqueues(id, job))
      ensures if id in old(jobs) then jobs == old(jobs)
              else
                && id in jobs && jobs == old(jobs)[id := jobs[id]] && SamePlace(job, jobs[id])
                && jobs[id].status.JobPending? && jobs[id].attempts == 0 && jobs[id].token.None? && DueFrom(jobs[id], job.nextTryAt)
    {
      ghost var w := run.world;
      if id !in jobs {
        jobs := jobs[id := Fresh(job)];
      }
      run := Extend(run, Enqueues(id, job), w.(jobs := jobs));
    }

    /** The guarded update all five transitions share. */
    method Update(call: Call) returns (matched: bool)
      requires Valid()
      modifies this
      ensures Valid() && Steps(Calls(call)) && locks == old(locks)
      ensures matched == Matches(old(jobs), call) && jobs == Called(old(jobs), call)
      ensures run.world.workers == old(run).world.workers
    {
      ghost var w := run.world;
      matched := Matches(jobs, call);
      if matched {
        jobs := jobs[call.id := Settled(jobs[call.id], call)];
      }
      run := Extend(run, Calls(call), w.(jobs := jobs));
    }

    method ReleaseLock(channel: Channel, token: Token)
      requires Valid()
      modifies this
      ensures Valid() && Steps(ReleasesLock(channel, token)) && jobs == old(jobs)
      ensures locks == if HoldsLock(old(locks), channel, token) then old(locks) - {channel} else old(locks)
      ensures run.world.workers == old(run).world.workers
    {
      ghost var w := run.world;
      locks := Unlocked(locks, channel, token);
      run := Extend(run, ReleasesLock(channel, token), w.(locks := locks));
    }

    /** MarkSent, or one of the calls that end a lease and free the channel. */
    method Perform(call: Call) returns (matched: bool)
      requires Valid()
      modifies this
      ensures Valid() && Later(old(run), run)
      ensures jobs == Called(old(jobs), call)
      ensures matched <==>
                && call.id in old(jobs) && old(jobs)[call.id].token == Some(call.token)
                && (old(jobs)[call.id].status.JobSending?
                    || (old(jobs)[call.id].status.JobSent? && !call.MarkSent? && !call.Cancel?))
      ensures if matched then
                call.id in jobs && jobs == old(jobs)[call.id := jobs[call.id]] && Ends(old(jobs)[call.id], jobs[call.id], call)
              else jobs == old(jobs)
      ensures locks ==
                if matched && !call.MarkSent? && HoldsLock(old(locks), old(jobs)[call.id].channel, call.token)
                then old(locks) - {old(jobs)[call.id].channel} else old(locks)
      ensures run.world.workers == old(run).world.workers
    {
      hide Next, Called, Possible, Ends;
      if Matches(jobs, call) { CallEnds(jobs, call); }
      CallsMatch(jobs, call);
      matched := Update(call);
      assert Later(run.before, run);
      if matched && !call.MarkSent? && call.id in jobs {
        ghost var mid := run;
        ReleaseLock(jobs[call.id].channel, call.token);
        assert Later(mid.before, mid) && Later(mid.before, run);
      }
    }

    /** A referee's retry of a failed job. */
    method Retry(id: JobId, channel: Channel, at: Time) returns (matched: bool)
      requires Valid()
      modifies this
      ensures Valid() && Steps(Retries(id, channel, at))
      ensures matched <==> id in old(jobs) && old(jobs)[id].channel == channel && old(jobs)[id].status.JobFailed?
      ensures if matched then
                && id in jobs && jobs == old(jobs)[id := jobs[id]] && SamePlace(old(jobs)[id], jobs[id])
                && jobs[id].status.JobPending? && jobs[id].token.None? && DueFrom(jobs[id], at)
              else jobs == old(jobs)
    {
      ghost var w := run.world;
      matched := Retryable(jobs, id, channel);
      if matched {
        jobs := Retried(jobs, id, channel, at);
      }
      run := Extend(run, Retries(id, channel, at), w.(jobs := jobs));
    }

    /** The due first job of a channel that is not listed yet and waits longest. */
    method NextCandidate(now: Time, listed: seq<JobId>) returns (found: Option<JobId>)
      ensures found.Some? ==> Waiting(jobs, found.value, now) && found.value !in listed
      ensures forall id | Waiting(jobs, id, now) && id !in listed :: found.Some? && !Longer(jobs, id, found.value)
    {
      hide IsHead, Due;
      found := None;
      var todo := jobs.Keys;
      while todo != {}
        invariant todo <= jobs.Keys
        invariant found.Some? ==> Waiting(jobs, found.value, now) && found.value !in listed
        invariant forall id | Waiting(jobs, id, now) && id !in todo && id !in listed ::
          found.Some? && !Longer(jobs, id, found.value)
      {
        var id :| id in todo;
        todo := todo - {id};
        if id !in listed && IsHead(jobs, id) && Due(jobs[id], now) && (found.None? || Longer(jobs, id, found.value)) {
          found := Some(id);
        }
      }
    }

    /** The channels' first open jobs that are due, those that wait longest first, at most 64. */
    method Candidates(now: Time) returns (ids: seq<JobId>)
      ensures |ids| <= CANDIDATE_LIMIT && ListsDueHeads(jobs, ids, now)
    {
      hide IsHead, Due;
      ids := [];
      while |ids| < CANDIDATE_LIMIT
        invariant |ids| <= CANDIDATE_LIMIT && LongestFirst(jobs, ids, now)
        decreases CANDIDATE_LIMIT - |ids|
      {
        var found := NextCandidate(now, ids);
        if found.None? { return; }
        ids := ids + [found.value];
      }
    }

    /** The first open job of a channel under the lock. */
    method FirstOpen(channel: Channel) returns (found: Option<JobId>)
      requires Queued(jobs)
      ensures FoundHead(jobs, channel, found)
    {
      hide Queued, IsHead;
      found := None;
      var todo := jobs.Keys;
      while todo != {}
        invariant todo <= jobs.Keys
        invariant found.Some? ==> found.value in jobs && jobs[found.value].channel == channel && !Terminal(jobs[found.value])
        invariant forall k | k in jobs && k !in todo && jobs[k].channel == channel && !Terminal(jobs[k]) ::
          found.Some? && !Before(jobs[k], jobs[found.value])
      {
        var id :| id in todo;
        todo := todo - {id};
        if jobs[id].channel == channel && !Terminal(jobs[id]) && (found.None? || Before(jobs[id], jobs[found.value])) {
          ghost var last := found;
          found := Some(id);
          forall k | k in jobs && k !in todo && jobs[k].channel == channel && !Terminal(jobs[k])
            ensures !Before(jobs[k], jobs[id])
          {
            if last.Some? && k != id { BeforeChains(jobs[k], jobs[id], jobs[last.value]); }
          }
        }
      }
      if found.Some? { FirstIsHead(jobs, found.value); }
    }

    // ----- Claim, step by step (irc_jobs.go 294-363)

    method ListFor(who: nat, now: Time, until: Time) returns (ids: seq<JobId>)
      requires Valid() && who in run.world.workers && run.world.workers[who].Free?
      modifies this`run
      ensures Valid() && Steps(Lists(who, now, until, ids)) && |ids| <= CANDIDATE_LIMIT
      ensures run.world == SetWorker(old(run).world, who, Trying(now, until, ids))
      ensures ListsDueHeads(jobs, ids, now)
    {
      hide IsHead, Due;
      ids := Candidates(now);
      run := Extend(run, Lists(who, now, until, ids), SetWorker(run.world, who, Trying(now, until, ids)));
    }

    /** Takes the channel's lock exactly if nobody holds it, or the lease on it has run out. */
    method TryLock(ghost who: nat, now: Time, until: Time, id: JobId, token: Token) returns (locked: bool)
      requires Valid() && IsTrying(run.world, who) && token !in run.world.issued
      requires var x := run.world.workers[who]; x.candidates[0] == id && x.now == now && x.until == until
      modifies this`run, this`locks
      ensures Valid() && Later(old(run), run) && run.Extend? && run.before == old(run)
      ensures run.world.issued <= old(run).world.issued + {token}
      ensures locked == CanLock(old(locks), jobs[id].channel, now)
      ensures locks == if locked then old(locks)[jobs[id].channel := Lock(token, until)] else old(locks)
      ensures var x := old(run).world.workers[who];
              run.world.workers == old(run).world.workers[who :=
                if locked then Locked(now, until, x.candidates, token) else Trying(now, until, x.candidates[1..])]
    {
      hide IsHead;
      ghost var w, x := run.world, run.world.workers[who];
      var channel := jobs[id].channel;
      locked := CanLock(locks, channel, now);
      if locked {
        locks := locks[channel := Lock(token, until)];
        run := Extend(run, TakesLock(who, token),
                      SetWorker(w.(locks := locks, issued := w.issued + {token}), who, Locked(now, until, x.candidates, token)));
      } else {
        run := Extend(run, SkipsLocked(who), SetWorker(w, who, Trying(now, until, x.candidates[1..])));
      }
      assert Later(run.before, run);
    }

    /** Under the lock: the candidate again, if it still is the channel's first open job. */
    method Reread(ghost who: nat, ghost now: Time, ghost until: Time, id: JobId, token: Token)
      returns (found: Option<JobId>)
      requires Valid() && who in run.world.workers && id in jobs
      requires run.world.workers[who].Locked? && run.world.workers[who].candidates != []
      requires run.world.workers[who] == Locked(now, until, [id] + run.world.workers[who].candidates[1..], token)
      modifies this`run, this`locks
      ensures Valid() && Later(old(run), run) && run.Extend? && run.before == old(run)
      ensures run.world.issued == old(run).world.issued
      ensures IsHead(jobs, id) ==> found == Some(id) && locks == old(locks)
      ensures var x := old(run).world.workers[who];
              run.world.workers == old(run).world.workers[who :=
                if found == Some(id) then Seen(now, until, x.candidates, token, jobs[id].status)
                else if found.None? then Free else Trying(now, until, x.candidates[1..])]
    {
      hide IsHead, Possible, FoundHead;
      QueuesStayOrdered(run);
      ghost var w, x := run.world, run.world.workers[who];
      var channel := jobs[id].channel;
      found := FirstOpen(channel);
      if IsHead(jobs, id) { HeadIsFound(jobs, id, found); }
      if found == Some(id) {
        run := Extend(run, Rereads(who, found), SetWorker(w, who, Seen(now, until, x.candidates, token, jobs[id].status)));
      } else {
        locks := Unlocked(locks, channel, token);
        run := Extend(run, Rereads(who, found),
                      SetWorker(w.(locks := locks), who, if found.None? then Free else Trying(now, until, x.candidates[1..])));
      }
      StepIsPossible(run);
    }

    /** The guarded update that makes the job the worker's. */
    method Take(ghost who: nat, ghost now: Time, until: Time, id: JobId, token: Token, seen: Status)
      returns (taken: bool)
      requires Valid() && who in run.world.workers && id in jobs && jobs[id].status == seen
      requires run.world.workers[who].Seen? && run.world.workers[who].candidates != []
      requires run.world.workers[who] == Seen(now, until, [id] + run.world.workers[who].candidates[1..], token, seen)
      modifies this
      ensures Valid() && Later(old(run), run) && run.Extend? && run.before == old(run) && taken
      ensures jobs == Taken(old(jobs), id, token, until) && locks == old(locks)
      ensures run.world.workers == old(run).world.workers[who := Holding(id, token)]
    {
      ghost var w := run.world;
      taken := Takes(jobs, id, seen);
      if taken {
        jobs := Taken(jobs, id, token, until);
        run := Extend(run, Claims(who), SetWorker(w.(jobs := jobs, spent := w.spent + {token}), who, Holding(id, token)));
      }
      assert Later(run.before, run);
    }

    method GiveUp(ghost who: nat)
      requires Valid() && who in run.world.workers
      modifies this`run
      ensures Valid() && Steps(Stops(who)) && run.world == SetWorker(old(run).world, who, Free)
    {
      run := Extend(run, Stops(who), SetWorker(run.world, who, Free));
    }

    /** Claim takes the first listed job whose channel it can lock, and nothing only if all
        their channels are locked. Tokens are fresh UUIDs. */
    method Claim(who: nat, now: Time, until: Time, tokens: seq<Token>)
      returns (claimed: Option<ClaimedJob>, ghost listed: seq<JobId>)
      requires Valid() && who in run.world.workers && run.world.workers[who].Free? && |tokens| == CANDIDATE_LIMIT
      requires forall i | 0 <= i < |tokens| :: tokens[i] !in run.world.issued
      requires forall i, j | 0 <= i < j < |tokens| :: tokens[i] != tokens[j]
      modifies this
      ensures Valid() && Later(old(run), run)
      ensures ListsDueHeads(old(jobs), listed, now)
      ensures claimed.None? ==>
        && jobs == old(jobs) && locks == old(locks)
        && forall i | 0 <= i < |listed| :: listed[i] in old(jobs) && HeldLock(old(locks), old(jobs)[listed[i]].channel, now)
      ensures claimed.Some? ==>
        var c := claimed.value;
        && FirstLockable(old(jobs), old(locks), listed, c.id, now)
        && Waiting(old(jobs), c.id, now) && c.token in tokens
        && c.status == old(jobs)[c.id].status && c.attempts == old(jobs)[c.id].attempts
        && c.id in jobs && jobs == old(jobs)[c.id := jobs[c.id]] && IsTaken(old(jobs)[c.id], jobs[c.id], c.token, until)
        && locks == old(locks)[old(jobs)[c.id].channel := Lock(c.token, until)]
    {
      hide IsHead, Due, Next, Possible, Taken, Longer, IsTaken;
      ghost var start := run;
      var ids := ListFor(who, now, until);
      listed := ids;
      StartsLater(start, run);
      var i := 0;
      while i < |ids|
        invariant 0 <= i <= |ids| && Valid() && Later(start, run) && jobs == old(jobs) && locks == old(locks)
        invariant forall k | 0 <= k < i :: ids[k] in jobs && HeldLock(locks, jobs[ids[k]].channel, now)
        invariant who in run.world.workers && run.world.workers[who] == Trying(now, until, ids[i..])
        invariant forall k | i <= k < |tokens| :: tokens[k] !in run.world.issued
      {
        ghost var before := run;
        HeadIsThere(jobs, ids[i]);
        var locked := TryLock(who, now, until, ids[i], tokens[i]);
        LaterChain(start, before, run);
        assert ids[i..][1..] == ids[i + 1..];
        if locked {
          before := run;
          assert ids[i..] == [ids[i]] + ids[i..][1..];
          var found := Reread(who, now, until, ids[i], tokens[i]);
          LaterChain(start, before, run);
          assert FirstLockable(jobs, old(locks), ids, ids[i], now);
          // Nobody has come in between, so the candidate still is the first open job.
          before := run;
          var status, attempts := jobs[ids[i]].status, jobs[ids[i]].attempts;
          TakenIsTaken(jobs, ids[i], tokens[i], until);
          var _ := Take(who, now, until, ids[i], tokens[i], status);
          LaterChain(start, before, run);
          return Some(ClaimedJob(ids[i], tokens[i], status, attempts)), ids;
        }
        i := i + 1;
      }
      ghost var before := run;
      GiveUp(who);
      StartsLater(before, run);
      LaterChain(start, before, run);
      return None, ids;
    }
  }

  /** The first open job of its channel, and due. */
  predicate Waiting(jobs: Jobs, id: JobId, now: Time) { id in jobs && IsHead(jobs, id) && Due(jobs[id], now) }

  /** The first job waits longer for its next try than the second, or was created earlier. */
  predicate Longer(jobs: Jobs, x: JobId, y: JobId)
    requires x in jobs && y in jobs
  {
    || jobs[x].nextTryAt < jobs[y].nextTryAt
    || (jobs[x].nextTryAt == jobs[y].nextTryAt && jobs[x].createdAt < jobs[y].createdAt)
  }

  /** Waiting jobs, each once, and whatever is not among them waits no longer than any of them. */
  ghost predicate LongestFirst(jobs: Jobs, ids: seq<JobId>, now: Time) {
    && (forall i | 0 <= i < |ids| :: Waiting(jobs, ids[i], now))
    && (forall i, j | 0 <= i < j < |ids| :: ids[i] != ids[j] && !Longer(jobs, ids[j], ids[i]))
    && (forall id, i | Waiting(jobs, id, now) && id !in ids && 0 <= i < |ids| :: !Longer(jobs, id, ids[i]))
  }

  /** The due first jobs of their channels, all of them below the limit. */
  ghost predicate ListsDueHeads(jobs: Jobs, ids: seq<JobId>, now: Time) {
    LongestFirst(jobs, ids, now) && (|ids| < 64 ==> forall id | Waiting(jobs, id, now) :: id in ids)
  }

  predicate FirstLockable(jobs: Jobs, locks: Locks, ids: seq<JobId>, id: JobId, now: Time) {
    exists i :: 0 <= i < |ids| && ids[i] == id && id in jobs && !HeldLock(locks, jobs[id].channel, now)
      && forall k | 0 <= k < i :: ids[k] in jobs && HeldLock(locks, jobs[ids[k]].channel, now)
  }

  /** The job is being sent by the holder of the token, and by nobody else before the lease ends. */
  ghost predicate IsTaken(j: Job, j': Job, token: Token, until: Time) {
    SamePlace(j, j') && j'.status.JobSending? && j'.attempts == j.attempts && j'.token == Some(token) && DueFrom(j', until)
  }

  lemma TakenIsTaken(jobs: Jobs, id: JobId, token: Token, until: Time)
    requires id in jobs
    ensures Taken(jobs, id, token, until) == jobs[id := Taken(jobs, id, token, until)[id]]
    ensures IsTaken(jobs[id], Taken(jobs, id, token, until)[id], token, until)
  {}

  // A channel has one first open job.
  lemma HeadIsFound(jobs: Jobs, id: JobId, found: Option<JobId>)
    requires Queued(jobs) && IsHead(jobs, id) && FoundHead(jobs, jobs[id].channel, found)
    ensures found == Some(id)
  {}

  lemma HeadIsThere(jobs: Jobs, id: JobId)
    requires IsHead(jobs, id)
    ensures id in jobs
  {}

  lemma StartsLater(b: Behaviour, b': Behaviour)
    requires b'.Extend? && b'.before == b
    ensures Later(b, b')
  {}

  lemma {:induction false} LaterChain(x: Behaviour, y: Behaviour, z: Behaviour)
    requires Later(x, y) && Later(y, z)
    ensures Later(x, z)
  {
    if z != y { LaterChain(x, y, z.before); }
  }

  lemma StepIsPossible(b: Behaviour)
    requires b.Extend? && Possible(b.before) && Next(b.before.world, b.world, b.move)
    ensures Possible(b) && Later(b.before, b)
  {}

  // ----- one pass of a worker (worker.go 113-205)

  /** What the pass meets outside the store: the validator, the rate limiter, the sender. */
  datatype Circumstances = Circumstances(obsolete: bool, invalid: bool, limited: bool, sendFails: bool, acknowledged: bool)

  datatype Ending = Nothing | Sent | Acknowledged | Failed(parked: bool) | Cancelled

  function Doubled(k: nat): nat { if k == 0 then 1 else 2 * Doubled(k - 1) }

  /** The wait after a failure, in seconds: 2 after the first two attempts, then 4, 8, 16, 32 and 64. */
  function Wait(attempts: nat): nat { Doubled(if attempts < 1 then 1 else if attempts > 6 then 6 else attempts) }

  /** How the pass leaves the job: sent, it waits for its acknowledgement; the fifth failure parks
      it for a referee; after any other it is due again when its wait is over. */
  ghost predicate EndsAs(j: Job, j': Job, ending: Ending, now: Time, ackWait: Duration) {
    && SamePlace(j, j')
    && match ending
       case Nothing => false
       case Sent => j'.status.JobSent? && j'.token.Some? && j'.attempts == j.attempts && DueFrom(j', now + ackWait)
       case Acknowledged => j'.status.JobAcknowledged? && j'.token.None? && NeverDue(j')
       case Failed(parked) =>
         && j'.status.JobFailed? && j'.token.None? && j'.attempts == j.attempts + 1 && (parked <==> j.attempts >= 4)
         && if parked then NeverDue(j') else DueFrom(j', now + Wait(j.attempts))
       case Cancelled => j'.status.JobCancelled? && j'.token.None? && NeverDue(j')
  }

  function Backoff(attempts: int): (seconds: nat)
    ensures 2 <= seconds <= 64
  {
    var n := if attempts < 1 then 1 else if attempts > 6 then 6 else attempts;
    if n == 1 then 2 else if n == 2 then 4 else if n == 3 then 8 else if n == 4 then 16 else if n == 5 then 32 else 64
  }

  /** The wait doubles with each attempt from the first to the sixth, and no further. */
  lemma BackoffDoubles(attempts: nat)
    ensures Backoff(attempts) == Wait(attempts)
    ensures attempts <= 1 ==> Wait(attempts) == 2
    ensures 1 <= attempts < 6 ==> Wait(attempts + 1) == 2 * Wait(attempts)
    ensures attempts >= 6 ==> Wait(attempts) == 64
  {
    assert Doubled(2) == 4 && Doubled(4) == 16 && Doubled(6) == 64;
  }

  method FailJob(q: JobQueue, c: ClaimedJob, now: Time)
    requires q.Valid() && Owned(q.jobs, c.id, c.token, {JobSending, JobSent}) && c.attempts == q.jobs[c.id].attempts
    modifies q
    ensures q.Valid() && Later(old(q.run), q.run)
    ensures c.id in q.jobs && q.jobs == old(q.jobs)[c.id := q.jobs[c.id]]
    ensures EndsAs(old(q.jobs)[c.id], q.jobs[c.id], Failed(c.attempts >= 4), now, 0)
    ensures q.locks == if HoldsLock(old(q.locks), old(q.jobs)[c.id].channel, c.token)
                       then old(q.locks) - {old(q.jobs)[c.id].channel} else old(q.locks)
  {
    hide Possible, Later, DueFrom, NeverDue;
    if c.attempts + 1 >= MAX_AUTOMATIC_ATTEMPTS {
      var _ := q.Perform(Reject(c.id, c.token));
    } else {
      BackoffDoubles(c.attempts);
      var _ := q.Perform(Fail(c.id, c.token, now + Backoff(c.attempts)));
    }
  }

  /** The pass got as far as sending. */
  predicate Sends(j: Job, x: Circumstances) { !x.obsolete && !x.invalid && !j.status.JobSent? && !x.limited }

  /** What becomes of the pass, in the order in which it looks. */
  predicate Becomes(j: Job, x: Circumstances, ending: Ending) {
    && (ending.Cancelled? <==> x.obsolete)
    && (ending.Failed? <==> !x.obsolete && (!Sends(j, x) || x.sendFails))
    && (ending.Acknowledged? <==> Sends(j, x) && !x.sendFails && x.acknowledged)
    && (ending.Sent? <==> Sends(j, x) && !x.sendFails && !x.acknowledged)
  }

  /** RunOnce: claim a job and take it as far as this pass goes. Nothing but the claimed job
      changes, and it ends as its circumstances say. The channel stays locked for the lease
      while the job awaits its acknowledgement, and is free otherwise. */
  method RunOnce(q: JobQueue, who: nat, now: Time, lease: Duration, ackWait: Duration, tokens: seq<Token>, x: Circumstances)
    returns (ending: Ending, id: JobId, ghost listed: seq<JobId>)
    requires q.Valid() && who in q.run.world.workers && q.run.world.workers[who].Free? && |tokens| == CANDIDATE_LIMIT
    requires forall i | 0 <= i < |tokens| :: tokens[i] !in q.run.world.issued
    requires forall i, j | 0 <= i < j < |tokens| :: tokens[i] != tokens[j]
    modifies q
    ensures q.Valid() && Later(old(q.run), q.run)
    ensures ListsDueHeads(old(q.jobs), listed, now)
    ensures ending.Nothing? ==>
      && q.jobs == old(q.jobs) && q.locks == old(q.locks)
      && forall i | 0 <= i < |listed| :: listed[i] in old(q.jobs) && HeldLock(old(q.locks), old(q.jobs)[listed[i]].channel, now)
    ensures !ending.Nothing? ==>
      && FirstLockable(old(q.jobs), old(q.locks), listed, id, now) && Waiting(old(q.jobs), id, now)
      && id in q.jobs && q.jobs == old(q.jobs)[id := q.jobs[id]]
      && Becomes(old(q.jobs)[id], x, ending) && EndsAs(old(q.jobs)[id], q.jobs[id], ending, now, ackWait)
    ensures !ending.Nothing? ==>
      var channel := old(q.jobs)[id].channel;
      if ending.Sent? then
        q.jobs[id].token.Some? && q.locks == old(q.locks)[channel := Lock(q.jobs[id].token.value, now + lease)]
      else q.locks == old(q.locks) - {channel}
  {
    hide Possible, IsHead, Due, Later, ListsDueHeads, FirstLockable, DueFrom, NeverDue, HeldLock, Called;
    ghost var start := q.run;
    id := "";
    var claimed: Option<ClaimedJob>;
    claimed, listed := q.Claim(who, now, now + lease, tokens);
    if claimed.None? { return Nothing, id, listed; }
    var c := claimed.value;
    id := c.id;
    ghost var before := q.run;
    if x.obsolete {
      var _ := q.Perform(Cancel(c.id, c.token));
      LaterChain(start, before, q.run);
      return Cancelled, id, listed;
    }
    if x.invalid || c.status.JobSent? || x.limited {
      FailJob(q, c, now);
      LaterChain(start, before, q.run);
      return Failed(c.attempts + 1 >= MAX_AUTOMATIC_ATTEMPTS), id, listed;
    }
    var _ := q.Perform(MarkSent(c.id, c.token, now + ackWait));
    LaterChain(start, before, q.run);
    before := q.run;
    if x.sendFails {
      FailJob(q, c, now);
      LaterChain(start, before, q.run);
      return Failed(c.attempts + 1 >= MAX_AUTOMATIC_ATTEMPTS), id, listed;
    }
    if x.acknowledged {
      var _ := q.Perform(Ack(c.id, c.token));
      LaterChain(start, before, q.run);
      return Acknowledged, id, listed;
    }
    return Sent, id, listed;
  }

  lemma BeforeChains(x: Job, y: Job, z: Job)
    requires Before(y, z)
    ensures Before(x, y) ==> Before(x, z)
  {}

  lemma FirstIsHead(jobs: Jobs, id: JobId)
    requires id in jobs && !Terminal(jobs[id])
    requires forall k | k in jobs && jobs[k].channel == jobs[id].channel && !Terminal(jobs[k]) :: !Before(jobs[k], jobs[id])
    ensures IsHead(jobs, id)
  {}
}
