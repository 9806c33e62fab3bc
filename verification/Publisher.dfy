/** Head-of-line publishing (internal/ircpublisher/publisher.go 48-81) over the outbox
    statuses of internal/persistence/command_store.go 241-309 and 384-416, with any number
    of publishers, failing plans and enqueues, referee retries, crashes and new commits. */
module Publisher {
  import opened CommandDocuments

  datatype EventRef = EventRef(id: MatchId, sequence: nat)

  /** A job's id is derived from the event that requested it. */
  datatype JobRef = JobRef(event: EventRef, name: string)

  type Statuses = seq<OutboxStatus>

  /** A publisher works through the events it listed; `jobs` are the ones it still has to
      enqueue for the first of them, once it has planned it. */
  datatype Worker = Worker(todo: seq<EventRef>, planned: bool, jobs: seq<JobRef>)

  const RESTING := Worker([], false, [])

  /** `outbox` holds the status of each event by sequence, `inserted` the new jobs in order. */
  datatype World = World(outbox: map<MatchId, Statuses>, inserted: seq<JobRef>, workers: map<nat, Worker>)

  predicate Exists(w: World, e: EventRef) { e.id in w.outbox && 1 <= e.sequence <= |w.outbox[e.id]| }

  function StatusOf(w: World, e: EventRef): OutboxStatus
    requires Exists(w, e)
  {
    w.outbox[e.id][e.sequence - 1]
  }

  function WithStatus(w: World, e: EventRef, status: OutboxStatus): World
    requires Exists(w, e)
  {
    w.(outbox := w.outbox[e.id := w.outbox[e.id][e.sequence - 1 := status]])
  }

  /** Every earlier event of the same match is published. */
  predicate EarlierPublished(w: World, e: EventRef)
    requires Exists(w, e)
  {
    forall k | 0 <= k < e.sequence - 1 :: w.outbox[e.id][k].OutboxPublished?
  }

  /** ListUnpublishedEvents returns a match's first unpublished event if it is pending. */
  predicate IsHead(w: World, e: EventRef) { Exists(w, e) && EarlierPublished(w, e) && StatusOf(w, e).OutboxPending? }

  /** Enqueue inserts a job once (irc_jobs.go 266-292). */
  function Inserted(w: World, job: JobRef): World {
    if job in w.inserted then w else w.(inserted := w.inserted + [job])
  }

  // ----- moves

  datatype Move =
    | Lists(who: nat, heads: seq<EventRef>)
    | Plans(who: nat, jobs: seq<JobRef>)
    | Fails(who: nat)
    | Enqueues(who: nat)
    | Publishes(who: nat)
    | Stops(who: nat)
    | Retries(event: EventRef)
    | CommandCommitted(id: MatchId, count: nat)

  predicate Busy(w: World, who: nat) { who in w.workers && w.workers[who].todo != [] }

  function Set(w: World, who: nat, worker: Worker): World { w.(workers := w.workers[who := worker]) }

  /** The rest of the list, or nothing when the status update found no document. */
  function Proceed(w: World, who: nat, marked: bool): World
    requires Busy(w, who)
  {
    Set(w, who, if marked then Worker(w.workers[who].todo[1..], false, []) else RESTING)
  }

  predicate Next(w: World, w': World, move: Move) {
    match move
    case Lists(who, heads) =>
      && who in w.workers && w.workers[who] == RESTING
      && (forall i | 0 <= i < |heads| :: IsHead(w, heads[i]))
      && w' == Set(w, who, Worker(heads, false, []))
    case Plans(who, jobs) =>
      && Busy(w, who) && !w.workers[who].planned
      && (forall i | 0 <= i < |jobs| :: jobs[i].event == w.workers[who].todo[0])
      && w' == Set(w, who, Worker(w.workers[who].todo, true, jobs))
    case Fails(who) =>
      && Busy(w, who)
      && var e := w.workers[who].todo[0];
         w' == if Exists(w, e) && !StatusOf(w, e).OutboxPublished? then Proceed(WithStatus(w, e, OutboxFailed), who, true)
               else Proceed(w, who, false)
    case Enqueues(who) =>
      && Busy(w, who) && w.workers[who].planned && w.workers[who].jobs != []
      && var x := w.workers[who];
         w' == Set(Inserted(w, x.jobs[0]), who, Worker(x.todo, true, x.jobs[1..]))
    case Publishes(who) =>
      && Busy(w, who) && w.workers[who].planned && w.workers[who].jobs == []
      && var e := w.workers[who].todo[0];
         w' == if Exists(w, e) && !StatusOf(w, e).OutboxPublished? then Proceed(WithStatus(w, e, OutboxPublished), who, true)
               else Proceed(w, who, false)
    case Stops(who) => who in w.workers && w' == Set(w, who, RESTING)
    case Retries(e) => Exists(w, e) && StatusOf(w, e).OutboxFailed? && w' == WithStatus(w, e, OutboxPending)
    case CommandCommitted(id, count) =>
      w' == w.(outbox := w.outbox[id := (if id in w.outbox then w.outbox[id] else []) + seq(count, _ => OutboxPending)])
  }

  predicate Initial(w: World) {
    w.outbox == map[] && w.inserted == [] && forall who | who in w.workers :: w.workers[who] == RESTING
  }

  datatype Behaviour = Begin(world: World) | Extend(before: Behaviour, move: Move, world: World)

  predicate Possible(b: Behaviour) {
    match b
    case Begin(w) => Initial(w)
    case Extend(before, move, w) => Possible(before) && Next(before.world, w, move)
  }

  // ----- the invariant

  predicate IsPrefix(statuses: Statuses) {
    forall i, j | 0 <= i < j < |statuses| && statuses[j].OutboxPublished? :: statuses[i].OutboxPublished?
  }

  /** Whatever a worker holds was once a head, and stays behind published events only. */
  predicate HoldsHeads(w: World, x: Worker) {
    && (forall i | 0 <= i < |x.todo| :: Exists(w, x.todo[i]) && EarlierPublished(w, x.todo[i]))
    && (x.jobs != [] ==> x.todo != [])
    && (forall i | 0 <= i < |x.jobs| :: x.jobs[i].event == x.todo[0])
  }

  predicate Sound(w: World) {
    && (forall id | id in w.outbox :: IsPrefix(w.outbox[id]))
    && (forall who | who in w.workers :: HoldsHeads(w, w.workers[who]))
    && (forall i | 0 <= i < |w.inserted| :: Exists(w, w.inserted[i].event) && EarlierPublished(w, w.inserted[i].event))
  }

  /** Events stay, and a PUBLISHED one stays published. */
  predicate Advanced(w: World, w': World) {
    forall id | id in w.outbox ::
      && id in w'.outbox && |w.outbox[id]| <= |w'.outbox[id]|
      && forall k | 0 <= k < |w.outbox[id]| && w.outbox[id][k].OutboxPublished? :: w'.outbox[id][k].OutboxPublished?
  }

  lemma AdvancedKeepsHeads(w: World, w': World, e: EventRef)
    requires Advanced(w, w') && Exists(w, e) && EarlierPublished(w, e)
    ensures Exists(w', e) && EarlierPublished(w', e)
  {}

  lemma MarkingIsSound(w: World, e: EventRef, status: OutboxStatus)
    requires Exists(w, e) && !StatusOf(w, e).OutboxPublished? && (status.OutboxPublished? ==> EarlierPublished(w, e))
    requires forall id | id in w.outbox :: IsPrefix(w.outbox[id])
    ensures var w' := WithStatus(w, e, status);
            Advanced(w, w') && forall id | id in w'.outbox :: IsPrefix(w'.outbox[id])
  {}

  lemma CommittingIsSound(w: World, id: MatchId, count: nat)
    requires forall id | id in w.outbox :: IsPrefix(w.outbox[id])
    ensures var w' := w.(outbox := w.outbox[id := (if id in w.outbox then w.outbox[id] else []) + seq(count, _ => OutboxPending)]);
            Advanced(w, w') && forall id | id in w'.outbox :: IsPrefix(w'.outbox[id])
  {}

  lemma SameOutboxAdvances(w: World, w': World)
    requires w'.outbox == w.outbox
    ensures Advanced(w, w')
  {}

  lemma StatusesAdvance(w: World, w': World, move: Move)
    requires Sound(w) && Next(w, w', move)
    ensures Advanced(w, w') && forall id | id in w'.outbox :: IsPrefix(w'.outbox[id])
  {
    hide IsPrefix, EarlierPublished, Advanced;
    match move {
      case Fails(who) =>
        var e := w.workers[who].todo[0];
        assert HoldsHeads(w, w.workers[who]);
        if !StatusOf(w, e).OutboxPublished? {
          MarkingIsSound(w, e, OutboxFailed);
          OutboxDecides(w, WithStatus(w, e, OutboxFailed), w');
        } else {
          SameOutboxAdvances(w, w');
        }
      case Publishes(who) =>
        var e := w.workers[who].todo[0];
        assert HoldsHeads(w, w.workers[who]);
        if !StatusOf(w, e).OutboxPublished? {
          MarkingIsSound(w, e, OutboxPublished);
          OutboxDecides(w, WithStatus(w, e, OutboxPublished), w');
        } else {
          SameOutboxAdvances(w, w');
        }
      case Retries(e) => MarkingIsSound(w, e, OutboxPending);
      case CommandCommitted(id, count) => CommittingIsSound(w, id, count);
      case _ => SameOutboxAdvances(w, w');
    }
  }

  lemma OutboxDecides(w: World, x: World, y: World)
    requires Advanced(w, x) && x.outbox == y.outbox
    ensures Advanced(w, y)
  {}

  lemma StepIsSound(w: World, w': World, move: Move)
    requires Sound(w) && Next(w, w', move)
    ensures Sound(w') && Advanced(w, w')
  {
    hide IsPrefix, EarlierPublished, Advanced;
    StatusesAdvance(w, w', move);
    forall e: EventRef | Exists(w, e) && EarlierPublished(w, e) ensures Exists(w', e) && EarlierPublished(w', e) {
      AdvancedKeepsHeads(w, w', e);
    }
    forall who | who in w'.workers ensures HoldsHeads(w', w'.workers[who]) {
      assert who in w.workers && HoldsHeads(w, w.workers[who]);
    }
  }

  /** However publishers, failures, retries and commits interleave, each match's PUBLISHED
      events are a prefix of its sequence. */
  lemma {:induction false} PublishedIsAPrefix(b: Behaviour)
    requires Possible(b)
    ensures Sound(b.world)
  {
    hide Next, IsPrefix;
    if b.Extend? {
      PublishedIsAPrefix(b.before);
      StepIsSound(b.before.world, b.world, b.move);
    }
  }

  /** A job first enters the queue only when all earlier events of its match are published. */
  lemma JobsEnterAtTheHead(b: Behaviour)
    requires Possible(b) && b.Extend? && b.world.inserted != b.before.world.inserted
    ensures b.move.Enqueues? && |b.world.inserted| == |b.before.world.inserted| + 1
    ensures var e := b.world.inserted[|b.world.inserted| - 1].event;
            Exists(b.before.world, e) && EarlierPublished(b.before.world, e)
  {
    PublishedIsAPrefix(b.before);
    var w := b.before.world;
    if b.move.Enqueues? { assert HoldsHeads(w, w.workers[b.move.who]); }
  }

  // ----- with stable plans, jobs enter in event order

  /** Every plan made in the behaviour is the one the function gives. */
  predicate PlansAre(b: Behaviour, plan: map<EventRef, seq<JobRef>>) {
    b.Extend? ==>
      && PlansAre(b.before, plan)
      && (b.move.Plans? ==>
            Busy(b.before.world, b.move.who)
            && var e := b.before.world.workers[b.move.who].todo[0]; e in plan && b.move.jobs == plan[e])
  }

  predicate AllIn(jobs: seq<JobRef>, inserted: seq<JobRef>) { forall i | 0 <= i < |jobs| :: jobs[i] in inserted }

  /** What is planned and no longer held has been inserted; so has all of a published event. */
  ghost predicate Complete(w: World, plan: map<EventRef, seq<JobRef>>) {
    && (forall e | Exists(w, e) && StatusOf(w, e).OutboxPublished? :: e in plan && AllIn(plan[e], w.inserted))
    && (forall who | who in w.workers :: WorkerComplete(w, w.workers[who], plan))
    && (forall e, i | e in plan && 0 <= i < |plan[e]| :: plan[e][i].event == e)
    && (forall i | 0 <= i < |w.inserted| :: w.inserted[i].event in plan && w.inserted[i] in plan[w.inserted[i].event])
  }

  predicate WorkerComplete(w: World, x: Worker, plan: map<EventRef, seq<JobRef>>) {
    x.planned && x.todo != [] ==>
      && x.todo[0] in plan
      && (forall i | 0 <= i < |plan[x.todo[0]]| :: plan[x.todo[0]][i] in x.jobs || plan[x.todo[0]][i] in w.inserted)
      && (forall i | 0 <= i < |x.jobs| :: x.jobs[i] in plan[x.todo[0]])
  }

  predicate InOrder(inserted: seq<JobRef>) {
    forall i, j | 0 <= i < j < |inserted| && inserted[i].event.id == inserted[j].event.id ::
      inserted[i].event.sequence <= inserted[j].event.sequence
  }

  lemma WorkersStayComplete(w: World, w': World, move: Move, plan: map<EventRef, seq<JobRef>>)
    requires Complete(w, plan) && Next(w, w', move)
    requires move.Plans? ==> Busy(w, move.who) && w.workers[move.who].todo[0] in plan && move.jobs == plan[w.workers[move.who].todo[0]]
    ensures forall who | who in w'.workers :: WorkerComplete(w', w'.workers[who], plan)
    ensures forall job | job in w.inserted :: job in w'.inserted
    ensures forall i | 0 <= i < |w'.inserted| :: w'.inserted[i].event in plan && w'.inserted[i] in plan[w'.inserted[i].event]
  {
    forall who | who in w'.workers ensures WorkerComplete(w', w'.workers[who], plan) {
      assert who in w.workers && WorkerComplete(w, w.workers[who], plan);
    }
    if move.Enqueues? {
      var x := w.workers[move.who];
      assert WorkerComplete(w, x, plan) && x.jobs[0] in plan[x.todo[0]];
    }
  }

  lemma StepStaysComplete(w: World, w': World, move: Move, plan: map<EventRef, seq<JobRef>>)
    requires Complete(w, plan) && Next(w, w', move)
    requires move.Plans? ==> Busy(w, move.who) && w.workers[move.who].todo[0] in plan && move.jobs == plan[w.workers[move.who].todo[0]]
    ensures Complete(w', plan)
  {
    WorkersStayComplete(w, w', move, plan);
    forall e | Exists(w', e) && StatusOf(w', e).OutboxPublished? ensures e in plan && AllIn(plan[e], w'.inserted) {
      if move.Publishes? && e == w.workers[move.who].todo[0] {
        assert WorkerComplete(w, w.workers[move.who], plan);
      }
    }
  }

  // A new job's event comes after nothing that is still missing jobs.
  lemma NewJobIsLast(w: World, job: JobRef, plan: map<EventRef, seq<JobRef>>, k: nat)
    requires Sound(w) && Complete(w, plan) && job !in w.inserted && job.event in plan && job in plan[job.event]
    requires Exists(w, job.event) && k < |w.inserted| && w.inserted[k].event.id == job.event.id
    ensures w.inserted[k].event.sequence <= job.event.sequence
  {}

  /** If planning an event always gives the same jobs, the jobs of a match enter the queue
      in the order of its events, whichever publisher enqueues them. */
  lemma {:induction false} JobsEnterInOrder(b: Behaviour, plan: map<EventRef, seq<JobRef>>)
    requires Possible(b) && PlansAre(b, plan)
    requires forall e, i | e in plan && 0 <= i < |plan[e]| :: plan[e][i].event == e
    ensures InOrder(b.world.inserted) && Complete(b.world, plan)
  {
    hide Next, IsPrefix, Sound, WorkerComplete;
    match b {
      case Begin(w) => RestingIsComplete(w, plan);
      case Extend(before, move, w) =>
        JobsEnterInOrder(before, plan);
        PublishedIsAPrefix(before);
        StepStaysComplete(before.world, w, move, plan);
        InsertionKeepsOrder(before.world, w, move, plan);
    }
  }

  lemma RestingIsComplete(w: World, plan: map<EventRef, seq<JobRef>>)
    requires Initial(w)
    ensures forall who | who in w.workers :: WorkerComplete(w, w.workers[who], plan)
  {}

  lemma InsertionKeepsOrder(w: World, w': World, move: Move, plan: map<EventRef, seq<JobRef>>)
    requires Sound(w) && Complete(w, plan) && Next(w, w', move) && InOrder(w.inserted)
    ensures InOrder(w'.inserted)
  {
    if move.Enqueues? && w'.inserted != w.inserted {
      var x := w.workers[move.who];
      assert WorkerComplete(w, x, plan) && HoldsHeads(w, x);
      forall k: nat | k < |w.inserted| && w.inserted[k].event.id == x.jobs[0].event.id
        ensures w.inserted[k].event.sequence <= x.jobs[0].event.sequence
      {
        NewJobIsLast(w, x.jobs[0], plan, k);
      }
    }
  }
}
