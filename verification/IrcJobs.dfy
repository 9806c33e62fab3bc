/** The IRC job queue of internal/persistence/irc_jobs.go 266-507: per-channel order, leases
    with fencing tokens, and any number of workers, crashes, expiries and retries. */
module IrcJobs {
  import opened MatchModel

  type JobId = string
  type Channel = string
  type Token = string

  datatype Status = JobPending | JobSending | JobSent | JobAcknowledged | JobFailed | JobCancelled

  datatype Job = Job(
    channel: Channel, sequence: nat, createdAt: Time, status: Status, attempts: nat, nextTryAt: Time,
    automaticRetry: bool, ackDeadline: Time, leaseUntil: Time, token: Option<Token>)

  datatype Lock = Lock(token: Token, until: Time)

  type Jobs = map<JobId, Job>
  type Locks = map<Channel, Lock>

  predicate Terminal(j: Job) { j.status.JobAcknowledged? || j.status.JobCancelled? }

  predicate InFlight(j: Job) { j.status.JobSending? || j.status.JobSent? }

  /** The order a channel is worked through: sequence, then creation. */
  predicate Before(x: Job, y: Job) {
    x.sequence < y.sequence || (x.sequence == y.sequence && x.createdAt < y.createdAt)
  }

  predicate SamePlace(j: Job, j': Job) {
    j'.channel == j.channel && j'.sequence == j.sequence && j'.createdAt == j.createdAt
  }

  /** The earliest job of its channel that is not terminal. */
  predicate IsHead(jobs: Jobs, id: JobId) {
    && id in jobs && !Terminal(jobs[id])
    && forall k | k in jobs && jobs[k].channel == jobs[id].channel && Before(jobs[k], jobs[id]) :: Terminal(jobs[k])
  }

  predicate Due(j: Job, now: Time) {
    match j.status
    case JobPending => j.nextTryAt <= now
    case JobFailed => j.automaticRetry && j.nextTryAt <= now
    case JobSending => j.leaseUntil <= now
    case JobSent => j.ackDeadline <= now
    case _ => false
  }

  // ----- the guarded updates (irc_jobs.go 365-507)

  /** The update's filter: the job has one of the statuses and is leased with this token. */
  predicate Owned(jobs: Jobs, id: JobId, token: Token, statuses: set<Status>) {
    id in jobs && jobs[id].status in statuses && jobs[id].token == Some(token)
  }

  datatype Call =
    | MarkSent(id: JobId, token: Token, deadline: Time)
    | Ack(id: JobId, token: Token)
    | Fail(id: JobId, token: Token, retryAt: Time)
    | Reject(id: JobId, token: Token)
    | Cancel(id: JobId, token: Token)

  predicate Matches(jobs: Jobs, call: Call) {
    Owned(jobs, call.id, call.token, if call.MarkSent? || call.Cancel? then {JobSending} else {JobSending, JobSent})
  }

  function Released(j: Job, status: Status): Job {
    j.(status := status, leaseUntil := 0, token := None, ackDeadline := 0)
  }

  /** What a matching call makes of the job. */
  function Settled(j: Job, call: Call): Job {
    match call
    case MarkSent(_, _, deadline) => j.(status := JobSent, ackDeadline := deadline, leaseUntil := 0)
    case Ack(_, _) => Released(j, JobAcknowledged)
    case Fail(_, _, retryAt) => Released(j, JobFailed).(automaticRetry := true, nextTryAt := retryAt, attempts := j.attempts + 1)
    case Reject(_, _) => Released(j, JobFailed).(automaticRetry := false, attempts := j.attempts + 1)
    case Cancel(_, _) => Released(j, JobCancelled)
  }

  function Called(jobs: Jobs, call: Call): Jobs {
    if Matches(jobs, call) then jobs[call.id := Settled(jobs[call.id], call)] else jobs
  }

  predicate Retryable(jobs: Jobs, id: JobId, channel: Channel) {
    id in jobs && jobs[id].channel == channel && jobs[id].status.JobFailed?
  }

  function Retried(jobs: Jobs, id: JobId, channel: Channel, at: Time): Jobs {
    if Retryable(jobs, id, channel) then
      jobs[id := Released(jobs[id], JobPending).(automaticRetry := true, nextTryAt := at)]
    else jobs
  }

  predicate CanLock(locks: Locks, channel: Channel, now: Time) { channel in locks ==> locks[channel].until <= now }

  function Unlocked(locks: Locks, channel: Channel, token: Token): Locks {
    if channel in locks && locks[channel].token == token then locks - {channel} else locks
  }

  predicate Takes(jobs: Jobs, id: JobId, seen: Status) { id in jobs && jobs[id].status == seen }

  function Taken(jobs: Jobs, id: JobId, token: Token, until: Time): Jobs
    requires id in jobs
  {
    jobs[id := jobs[id].(status := JobSending, leaseUntil := until, token := Some(token))]
  }

  // ----- the steps of Claim (irc_jobs.go 294-363)

  /** Where a worker is: the candidates it has still to try, the channel lock it holds, the
      head it re-read under the lock, or the job it claimed. */
  datatype Worker =
    | Free
    | Trying(now: Time, until: Time, candidates: seq<JobId>)
    | Locked(now: Time, until: Time, candidates: seq<JobId>, token: Token)
    | Seen(now: Time, until: Time, candidates: seq<JobId>, token: Token, status: Status)
    | Holding(id: JobId, token: Token)

  datatype World = World(
    jobs: Jobs, locks: Locks, issued: set<Token>, spent: set<Token>, workers: map<nat, Worker>)

  datatype Move =
    | Enqueues(id: JobId, job: Job)
    | Lists(who: nat, now: Time, until: Time, candidates: seq<JobId>)
    | TakesLock(who: nat, token: Token)
    | SkipsLocked(who: nat)
    | Rereads(who: nat, found: Option<JobId>)
    | Claims(who: nat)
    | Calls(call: Call)
    | ReleasesLock(channel: Channel, token: Token)
    | Retries(id: JobId, channel: Channel, at: Time)
    | Stops(who: nat)

  /** A channel only grows at its end. */
  predicate EntersInOrder(jobs: Jobs, job: Job) {
    forall k | k in jobs && jobs[k].channel == job.channel :: Before(jobs[k], job)
  }

  function Fresh(job: Job): Job { job.(status := JobPending, attempts := 0, automaticRetry := true, token := None) }

  predicate FoundHead(jobs: Jobs, channel: Channel, found: Option<JobId>) {
    if found.Some? then IsHead(jobs, found.value) && jobs[found.value].channel == channel
    else forall k | k in jobs && jobs[k].channel == channel :: Terminal(jobs[k])
  }

  predicate IsTrying(w: World, who: nat) {
    who in w.workers && w.workers[who].Trying? && w.workers[who].candidates != [] && w.workers[who].candidates[0] in w.jobs
  }

  function ChannelOf(w: World, x: Worker): Channel
    requires (x.Trying? || x.Locked? || x.Seen?) && x.candidates != [] && x.candidates[0] in w.jobs
  {
    w.jobs[x.candidates[0]].channel
  }

  function SetWorker(w: World, who: nat, x: Worker): World { w.(workers := w.workers[who := x]) }

  predicate Next(w: World, w': World, move: Move) {
    match move
    case Enqueues(id, job) =>
      if id in w.jobs then w' == w
      else EntersInOrder(w.jobs, job) && w' == w.(jobs := w.jobs[id := Fresh(job)])
    case Lists(who, now, until, candidates) =>
      && who in w.workers && w.workers[who].Free?
      && (forall i | 0 <= i < |candidates| :: IsHead(w.jobs, candidates[i]) && Due(w.jobs[candidates[i]], now))
      && w' == SetWorker(w, who, Trying(now, until, candidates))
    case TakesLock(who, token) =>
      && IsTrying(w, who) && token !in w.issued
      && var x := w.workers[who];
         && CanLock(w.locks, ChannelOf(w, x), x.now)
         && w' == SetWorker(w.(locks := w.locks[ChannelOf(w, x) := Lock(token, x.until)], issued := w.issued + {token}),
                            who, Locked(x.now, x.until, x.candidates, token))
    case SkipsLocked(who) =>
      && IsTrying(w, who)
      && var x := w.workers[who];
         !CanLock(w.locks, ChannelOf(w, x), x.now) && w' == SetWorker(w, who, Trying(x.now, x.until, x.candidates[1..]))
    case Rereads(who, found) =>
      && who in w.workers && w.workers[who].Locked?
      && var x := w.workers[who];
         && x.candidates != [] && x.candidates[0] in w.jobs && FoundHead(w.jobs, ChannelOf(w, x), found)
         && w' == if found == Some(x.candidates[0]) then
                    SetWorker(w, who, Seen(x.now, x.until, x.candidates, x.token, w.jobs[x.candidates[0]].status))
                  else
                    SetWorker(w.(locks := Unlocked(w.locks, ChannelOf(w, x), x.token)), who,
                              if found.None? then Free else Trying(x.now, x.until, x.candidates[1..]))
    case Claims(who) =>
      && who in w.workers && w.workers[who].Seen?
      && var x := w.workers[who];
         && x.candidates != []
         && var id := x.candidates[0];
            w' == if Takes(w.jobs, id, x.status) then
                    SetWorker(w.(jobs := Taken(w.jobs, id, x.token, x.until), spent := w.spent + {x.token}),
                              who, Holding(id, x.token))
                  else if id in w.jobs then
                    SetWorker(w.(locks := Unlocked(w.locks, w.jobs[id].channel, x.token)), who,
                              Trying(x.now, x.until, x.candidates[1..]))
                  else w
    case Calls(call) => w' == w.(jobs := Called(w.jobs, call))
    case ReleasesLock(channel, token) => w' == w.(locks := Unlocked(w.locks, channel, token))
    case Retries(id, channel, at) => w' == w.(jobs := Retried(w.jobs, id, channel, at))
    case Stops(who) => who in w.workers && w' == SetWorker(w, who, Free)
  }

  predicate Initial(w: World) {
    && w.jobs == map[] && w.locks == map[] && w.issued == {} && w.spent == {}
    && forall who | who in w.workers :: w.workers[who].Free?
  }

  datatype Behaviour = Begin(world: World) | Extend(before: Behaviour, move: Move, world: World)

  predicate Possible(b: Behaviour) {
    match b
    case Begin(w) => Initial(w)
    case Extend(before, move, w) => Possible(before) && Next(before.world, w, move)
  }

  // ----- order

  predicate Ordered(jobs: Jobs) {
    forall x, y | x in jobs && y in jobs && x != y && jobs[x].channel == jobs[y].channel ::
      Before(jobs[x], jobs[y]) || Before(jobs[y], jobs[x])
  }

  predicate FlightsAreHeads(jobs: Jobs) { forall id | id in jobs && InFlight(jobs[id]) :: IsHead(jobs, id) }

  /** Everything before a terminal job of the channel is terminal. */
  predicate TerminalFirst(jobs: Jobs) {
    forall x, y | x in jobs && y in jobs && jobs[x].channel == jobs[y].channel && Before(jobs[x], jobs[y]) && Terminal(jobs[y]) ::
      Terminal(jobs[x])
  }

  predicate Queued(jobs: Jobs) { Ordered(jobs) && FlightsAreHeads(jobs) && TerminalFirst(jobs) }

  /** Jobs keep their place, and terminal jobs stay as they are. */
  predicate Progressed(jobs: Jobs, jobs': Jobs) {
    forall id | id in jobs ::
      && id in jobs' && jobs'[id].channel == jobs[id].channel
      && jobs'[id].sequence == jobs[id].sequence && jobs'[id].createdAt == jobs[id].createdAt
      && (Terminal(jobs[id]) ==> jobs'[id] == jobs[id])
  }

  /** A worker that re-read a head acts on it only while it still is one. */
  predicate SawHead(jobs: Jobs, x: Worker) {
    x.Seen? ==> x.candidates != [] && x.candidates[0] in jobs && (Terminal(jobs[x.candidates[0]]) || IsHead(jobs, x.candidates[0]))
                && !(x.status.JobAcknowledged? || x.status.JobCancelled?)
  }

  // One job changes status; it was a head or it does not become terminal or in flight.
  lemma ChangeKeepsQueue(jobs: Jobs, id: JobId, j: Job)
    requires Queued(jobs) && id in jobs && !Terminal(jobs[id])
    requires j.channel == jobs[id].channel && j.sequence == jobs[id].sequence && j.createdAt == jobs[id].createdAt
    requires InFlight(j) || Terminal(j) ==> IsHead(jobs, id)
    ensures Queued(jobs[id := j]) && Progressed(jobs, jobs[id := j])
  {
    var jobs' := jobs[id := j];
    forall k | k in jobs' && InFlight(jobs'[k]) ensures IsHead(jobs', k) {
      if k != id { assert IsHead(jobs, k); }
    }
  }

  lemma EnqueueKeepsQueue(jobs: Jobs, id: JobId, job: Job)
    requires Queued(jobs) && id !in jobs && EntersInOrder(jobs, job)
    ensures Queued(jobs[id := Fresh(job)]) && Progressed(jobs, jobs[id := Fresh(job)])
  {
    var jobs' := jobs[id := Fresh(job)];
    forall k | k in jobs' && InFlight(jobs'[k]) ensures IsHead(jobs', k) { assert IsHead(jobs, k); }
  }

  lemma CallKeepsQueue(jobs: Jobs, call: Call)
    requires Queued(jobs)
    ensures Queued(Called(jobs, call)) && Progressed(jobs, Called(jobs, call))
  {
    hide Queued, Progressed, IsHead;
    if Matches(jobs, call) {
      FlightIsHead(jobs, call.id);
      ChangeKeepsQueue(jobs, call.id, Settled(jobs[call.id], call));
    } else {
      ProgressedFromItself(jobs);
    }
  }

  lemma FlightIsHead(jobs: Jobs, id: JobId)
    requires Queued(jobs) && id in jobs && InFlight(jobs[id])
    ensures IsHead(jobs, id)
  {}

  lemma ProgressedFromItself(jobs: Jobs)
    ensures Progressed(jobs, jobs)
  {}

  lemma JobsStayQueued(w: World, w': World, move: Move)
    requires Queued(w.jobs) && (forall who | who in w.workers :: SawHead(w.jobs, w.workers[who])) && Next(w, w', move)
    ensures Queued(w'.jobs) && Progressed(w.jobs, w'.jobs)
  {
    hide Queued, Progressed, IsHead, Called, EntersInOrder;
    ProgressedFromItself(w.jobs);
    match move
    case Enqueues(id, job) => if id !in w.jobs { EnqueueKeepsQueue(w.jobs, id, job); }
    case Claims(who) =>
      var x := w.workers[who];
      assert SawHead(w.jobs, x);
      if Takes(w.jobs, x.candidates[0], x.status) {
        ChangeKeepsQueue(w.jobs, x.candidates[0], Taken(w.jobs, x.candidates[0], x.token, x.until)[x.candidates[0]]);
      }
    case Calls(call) => CallKeepsQueue(w.jobs, call);
    case Retries(id, channel, at) =>
      if Retryable(w.jobs, id, channel) { ChangeKeepsQueue(w.jobs, id, Retried(w.jobs, id, channel, at)[id]); }
    case _ =>
  }

  // A head stays one until it is terminal: nothing enters before it.
  lemma HeadStays(w: World, w': World, move: Move, id: JobId)
    requires Next(w, w', move) && Progressed(w.jobs, w'.jobs) && IsHead(w.jobs, id)
    ensures id in w'.jobs && (Terminal(w'.jobs[id]) || IsHead(w'.jobs, id))
  {
    forall k | k in w'.jobs && w'.jobs[k].channel == w'.jobs[id].channel && Before(w'.jobs[k], w'.jobs[id])
      ensures Terminal(w'.jobs[k])
    {
      assert k in w.jobs;
    }
  }

  lemma SightsStay(w: World, w': World, move: Move)
    requires (forall who | who in w.workers :: SawHead(w.jobs, w.workers[who])) && Next(w, w', move)
    requires Progressed(w.jobs, w'.jobs)
    ensures forall who | who in w'.workers :: SawHead(w'.jobs, w'.workers[who])
  {
    hide IsHead, Called, EntersInOrder;
    forall who | who in w'.workers ensures SawHead(w'.jobs, w'.workers[who]) {
      assert who in w.workers && SawHead(w.jobs, w.workers[who]);
      var x := w'.workers[who];
      if x.Seen? {
        if w.workers[who] == x && x.candidates[0] in w.jobs && IsHead(w.jobs, x.candidates[0]) {
          HeadStays(w, w', move, x.candidates[0]);
        } else if x != w.workers[who] {
          HeadIsOpen(w.jobs, x.candidates[0]);
        }
      }
    }
  }

  lemma HeadIsOpen(jobs: Jobs, id: JobId)
    requires IsHead(jobs, id)
    ensures id in jobs && !Terminal(jobs[id])
  {}

  predicate Sound(w: World) { Queued(w.jobs) && forall who | who in w.workers :: SawHead(w.jobs, w.workers[who]) }

  lemma {:induction false} QueuesStayOrdered(b: Behaviour)
    requires Possible(b)
    ensures Sound(b.world)
  {
    hide Next, Queued, SawHead, Progressed;
    match b
    case Begin(w) => EmptyIsSound(w);
    case Extend(before, move, w) =>
      QueuesStayOrdered(before);
      JobsStayQueued(before.world, w, move);
      SightsStay(before.world, w, move);
  }

  lemma EmptyIsSound(w: World)
    requires Initial(w)
    ensures Sound(w)
  {}

  /** At most one job of a channel is being sent or awaits its acknowledgement, and it is
      the channel's first open job, under every interleaving. */
  lemma OneJobInFlight(b: Behaviour, x: JobId, y: JobId)
    requires Possible(b) && x in b.world.jobs && y in b.world.jobs
    requires b.world.jobs[x].channel == b.world.jobs[y].channel && InFlight(b.world.jobs[x])
    requires InFlight(b.world.jobs[y])
    ensures x == y && IsHead(b.world.jobs, x)
  {
    QueuesStayOrdered(b);
    assert IsHead(b.world.jobs, x) && IsHead(b.world.jobs, y);
  }

  // ----- terminal jobs

  predicate Later(b: Behaviour, b': Behaviour) { b' == b || (b'.Extend? && Later(b, b'.before)) }

  lemma ProgressChains(jobs: Jobs, jobs': Jobs, jobs'': Jobs)
    requires Progressed(jobs, jobs') && Progressed(jobs', jobs'')
    ensures Progressed(jobs, jobs'')
  {}

  lemma {:induction false} TerminalJobsStay(b: Behaviour, b': Behaviour)
    requires Possible(b') && Later(b, b')
    ensures Possible(b) && Progressed(b.world.jobs, b'.world.jobs)
  {
    hide Next, Queued, SawHead, Progressed;
    if b' == b {
      ProgressedFromItself(b.world.jobs);
    } else {
      TerminalJobsStay(b, b'.before);
      QueuesStayOrdered(b'.before);
      JobsStayQueued(b'.before.world, b'.world, b'.move);
      ProgressChains(b.world.jobs, b'.before.world.jobs, b'.world.jobs);
    }
  }

  /** Jobs become ACKNOWLEDGED or CANCELLED in channel order and never leave. */
  lemma TerminalInOrder(b: Behaviour, b': Behaviour, x: JobId, y: JobId)
    requires Possible(b') && Later(b, b')
    requires x in b.world.jobs && y in b.world.jobs && b.world.jobs[x].channel == b.world.jobs[y].channel
    requires Before(b.world.jobs[x], b.world.jobs[y]) && Terminal(b.world.jobs[y])
    ensures Terminal(b.world.jobs[x])
    ensures x in b'.world.jobs && b'.world.jobs[x] == b.world.jobs[x]
    ensures y in b'.world.jobs && b'.world.jobs[y] == b.world.jobs[y]
  {
    hide Next, SawHead;
    TerminalJobsStay(b, b');
    QueuesStayOrdered(b);
  }

  // ----- fencing

  /** The token a worker has issued but not yet put on a job. */
  predicate Carries(x: Worker, token: Token) { (x.Locked? || x.Seen?) && x.token == token }

  predicate JobsSpend(w: World) {
    w.spent <= w.issued && forall id | id in w.jobs && w.jobs[id].token.Some? :: w.jobs[id].token.value in w.spent
  }

  ghost predicate WorkersCarry(w: World) {
    && (forall who, token | who in w.workers && Carries(w.workers[who], token) :: token in w.issued && token !in w.spent)
    && (forall who, other, token | who in w.workers && other in w.workers
          && Carries(w.workers[who], token) && Carries(w.workers[other], token) :: who == other)
  }

  ghost predicate Fenced(w: World) { JobsSpend(w) && WorkersCarry(w) }

  lemma JobsKeepSpending(w: World, w': World, move: Move)
    requires Fenced(w) && Next(w, w', move)
    ensures JobsSpend(w') && w.spent <= w'.spent && w.issued <= w'.issued
  {
    hide IsHead, EntersInOrder, FoundHead, CanLock;
    if move.Claims? { assert Carries(w.workers[move.who], w.workers[move.who].token); }
  }

  lemma WorkersKeepCarrying(w: World, w': World, move: Move)
    requires Fenced(w) && Next(w, w', move)
    ensures WorkersCarry(w')
  {
    hide Fenced, JobsSpend, WorkersCarry, Next, Carries;
    FencedParts(w);
    forall who, token | who in w'.workers && Carries(w'.workers[who], token)
      ensures who in w.workers
      ensures Carries(w.workers[who], token) || (move.TakesLock? && move.who == who && token == move.token)
    {
      CarriedBefore(w, w', move, who, token);
    }
    TokensStay(w, w', move);
    StillCarry(w, w', move);
  }

  // A worker carries only what it carried, or the token it has just put on a lock.
  lemma CarriedBefore(w: World, w': World, move: Move, who: nat, token: Token)
    requires Next(w, w', move) && who in w'.workers && Carries(w'.workers[who], token)
    ensures who in w.workers
    ensures Carries(w.workers[who], token) || (move.TakesLock? && move.who == who && token == move.token)
  {
    hide IsHead, EntersInOrder, FoundHead, CanLock, Called, Retried, Unlocked;
  }

  // Issued tokens stay issued, and only a claim spends one, which its worker then drops.
  lemma TokensStay(w: World, w': World, move: Move)
    requires Next(w, w', move)
    ensures w.issued <= w'.issued && (move.TakesLock? ==> move.token in w'.issued && move.token !in w.issued)
    ensures w'.spent == w.spent
         || (move.Claims? && move.who in w.workers && w.workers[move.who].Seen? && move.who in w'.workers
             && w'.spent == w.spent + {w.workers[move.who].token} && w'.workers[move.who].Holding?)
  {
    hide IsHead, EntersInOrder, FoundHead, CanLock, Called, Retried, Unlocked;
  }

  lemma StillCarry(w: World, w': World, move: Move)
    requires WorkersCarry(w) && w.spent <= w.issued
    requires forall who, token | who in w'.workers && Carries(w'.workers[who], token) ::
               who in w.workers && (Carries(w.workers[who], token) || (move.TakesLock? && move.who == who && token == move.token))
    requires w.issued <= w'.issued && (move.TakesLock? ==> move.token in w'.issued && move.token !in w.issued)
    requires w'.spent == w.spent
          || (move.Claims? && move.who in w.workers && w.workers[move.who].Seen? && move.who in w'.workers
              && w'.spent == w.spent + {w.workers[move.who].token} && w'.workers[move.who].Holding?)
    ensures WorkersCarry(w')
  {
    if move.Claims? && w'.spent != w.spent { assert Carries(w.workers[move.who], w.workers[move.who].token); }
    if move.TakesLock? { assert w'.spent == w.spent; }
  }

  lemma StepStaysFenced(w: World, w': World, move: Move)
    requires Fenced(w) && Next(w, w', move)
    ensures Fenced(w') && w.spent <= w'.spent
  {
    hide Fenced, Next, JobsSpend, WorkersCarry;
    JobsKeepSpending(w, w', move);
    WorkersKeepCarrying(w, w', move);
    FencedParts(w');
  }

  lemma FencedParts(w: World)
    ensures Fenced(w) <==> JobsSpend(w) && WorkersCarry(w)
    ensures JobsSpend(w) ==> w.spent <= w.issued
  {}

  lemma {:induction false} TokensStayFenced(b: Behaviour)
    requires Possible(b)
    ensures Fenced(b.world)
  {
    hide Next, Fenced;
    match b
    case Begin(w) => EmptyIsFenced(w);
    case Extend(before, move, w) =>
      TokensStayFenced(before);
      StepStaysFenced(before.world, w, move);
  }

  lemma EmptyIsFenced(w: World)
    requires Initial(w)
    ensures Fenced(w)
  {}

  /** The token was on a job once, and it is not on this one now. */
  predicate Superseded(w: World, id: JobId, token: Token) {
    token in w.spent && (id in w.jobs ==> w.jobs[id].token != Some(token))
  }

  lemma StepStaysSuperseded(w: World, w': World, move: Move, id: JobId, token: Token)
    requires Fenced(w) && Next(w, w', move) && Superseded(w, id, token)
    ensures Superseded(w', id, token)
  {
    hide IsHead, EntersInOrder, FoundHead, CanLock;
    if move.Claims? { assert Carries(w.workers[move.who], w.workers[move.who].token); }
  }

  /** A superseded token never works again: from then on no call with it changes a job. */
  lemma {:induction false} SupersededForever(b: Behaviour, b': Behaviour, id: JobId, token: Token, call: Call)
    requires Possible(b') && Later(b, b') && Superseded(b.world, id, token) && call.id == id && call.token == token
    ensures Superseded(b'.world, id, token) && Called(b'.world.jobs, call) == b'.world.jobs
  {
    hide Next, Fenced;
    if b' != b {
      SupersededForever(b, b'.before, id, token, call);
      TokensStayFenced(b'.before);
      StepStaysSuperseded(b'.before.world, b'.world, b'.move, id, token);
    }
  }

  /** A new claim of a job supersedes the token the job carried before. */
  lemma ClaimsSupersede(b: Behaviour, id: JobId, token: Token)
    requires Possible(b) && b.Extend? && b.move.Claims?
    requires id in b.before.world.jobs && b.before.world.jobs[id].token == Some(token)
    requires b.world.jobs[id] != b.before.world.jobs[id]
    ensures Superseded(b.world, id, token)
  {
    hide IsHead, FoundHead, CanLock;
    TokensStayFenced(b.before);
    var w := b.before.world;
    assert Carries(w.workers[b.move.who], w.workers[b.move.who].token);
  }
}
