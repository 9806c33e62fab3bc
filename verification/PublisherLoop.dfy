/** The outbox and job queue as a publisher uses them, and one pass of RunOnce
    (internal/ircpublisher/publisher.go 48-81, internal/persistence/command_store.go 241-309,
    384-416). The object carries the run of Publisher it has gone through. */
module PublisherLoop {
  import opened CommandDocuments
  import opened Publisher
  import opened MatchModel

  const LIMIT := 100

  class EventOutbox {
    var outbox: map<MatchId, Statuses>
    var inserted: seq<JobRef>
    ghost var run: Behaviour

    ghost predicate Valid()
      reads this
    {
      Possible(run) && run.world.outbox == outbox && run.world.inserted == inserted
    }

    twostate predicate Steps(move: Move)
      reads this
    {
      run == Extend(old(run), move, run.world) && Next(old(run).world, run.world, move)
    }

    constructor (ghost workers: set<nat>)
      ensures Valid() && outbox == map[] && inserted == []
    {
      outbox, inserted := map[], [];
      run := Begin(Publisher.World(map[], [], map who | who in workers :: RESTING));
    }

    method Commit(id: MatchId, count: nat)
      requires Valid()
      modifies this
      ensures Valid() && Steps(CommandCommitted(id, count)) && inserted == old(inserted)
    {
      ghost var w := run.world;
      outbox := outbox[id := (if id in outbox then outbox[id] else []) + seq(count, _ => OutboxPending)];
      run := Extend(run, CommandCommitted(id, count), w.(outbox := outbox));
    }

    /** A referee's retry of a failed event. */
    method RetryFailedEvent(e: EventRef) returns (found: bool)
      requires Valid()
      modifies this
      ensures Valid() && inserted == old(inserted)
      ensures found <==> e.id in old(outbox) && 1 <= e.sequence <= |old(outbox)[e.id]| && old(outbox)[e.id][e.sequence - 1].OutboxFailed?
      ensures if found then Steps(Retries(e)) else run == old(run)
    {
      ghost var w := run.world;
      found := e.id in outbox && 1 <= e.sequence <= |outbox[e.id]| && outbox[e.id][e.sequence - 1].OutboxFailed?;
      if found {
        outbox := outbox[e.id := outbox[e.id][e.sequence - 1 := OutboxPending]];
        run := Extend(run, Retries(e), w.(outbox := outbox));
      }
    }

    /** Where a match's first event stands that is not published yet. */
    method FirstUnpublished(statuses: Statuses) returns (k: nat)
      ensures k <= |statuses| && (forall i | 0 <= i < k :: statuses[i].OutboxPublished?)
      ensures k < |statuses| ==> !statuses[k].OutboxPublished?
    {
      k := 0;
      while k < |statuses| && statuses[k].OutboxPublished?
        invariant k <= |statuses| && forall i | 0 <= i < k :: statuses[i].OutboxPublished?
      {
        k := k + 1;
      }
    }

    /** ListUnpublishedEvents: each match's head if it is pending, up to the limit. */
    method ListUnpublished(ghost who: nat) returns (heads: seq<EventRef>)
      requires Valid() && who in run.world.workers && run.world.workers[who] == RESTING
      modifies this`run
      ensures Valid() && Steps(Lists(who, heads)) && run.world == Set(old(run).world, who, Worker(heads, false, []))
      ensures forall i | 0 <= i < |heads| :: IsHead(old(run).world, heads[i])
      ensures forall i, j | 0 <= i < j < |heads| :: heads[i].id != heads[j].id
      ensures |heads| < LIMIT ==> forall e | IsHead(old(run).world, e) :: e in heads
    {
      hide EarlierPublished;
      ghost var w := run.world;
      heads := [];
      var todo := outbox.Keys;
      while todo != {}
        invariant run == old(run) && todo <= outbox.Keys && |heads| <= LIMIT
        invariant forall i | 0 <= i < |heads| :: IsHead(w, heads[i]) && heads[i].id !in todo
        invariant forall i, j | 0 <= i < j < |heads| :: heads[i].id != heads[j].id
        invariant |heads| < LIMIT ==> forall e | IsHead(w, e) && e.id !in todo :: e in heads
      {
        var id :| id in todo;
        todo := todo - {id};
        var k := FirstUnpublished(outbox[id]);
        HeadIsFirst(w, id, k);
        if |heads| < LIMIT && k < |outbox[id]| && outbox[id][k].OutboxPending? {
          heads := heads + [EventRef(id, k + 1)];
        }
      }
      run := Extend(run, Lists(who, heads), Set(w, who, Worker(heads, false, [])));
    }

    /** The status update of MarkEventPublished and MarkEventFailed. */
    method Mark(e: EventRef, status: OutboxStatus) returns (marked: bool)
      requires !status.OutboxPending?
      modifies this`outbox
      ensures marked <==> e.id in old(outbox) && 1 <= e.sequence <= |old(outbox)[e.id]|
                          && !old(outbox)[e.id][e.sequence - 1].OutboxPublished?
      ensures outbox == if marked then old(outbox)[e.id := old(outbox)[e.id][e.sequence - 1 := status]] else old(outbox)
    {
      if e.id !in outbox || e.sequence < 1 || e.sequence > |outbox[e.id]| { return false; }
      if outbox[e.id][e.sequence - 1].OutboxPublished? { return false; }
      outbox := outbox[e.id := outbox[e.id][e.sequence - 1 := status]];
      return true;
    }

    method FailFirst(ghost who: nat, e: EventRef) returns (marked: bool)
      requires Valid() && Busy(run.world, who) && run.world.workers[who].todo[0] == e
      modifies this
      ensures Valid() && Steps(Fails(who)) && inserted == old(inserted)
      ensures marked <==> Exists(old(run).world, e) && !StatusOf(old(run).world, e).OutboxPublished?
      ensures run.world.workers == old(run).world.workers[who := AfterFirst(old(run).world.workers[who], marked)]
      ensures outbox == if marked then old(outbox)[e.id := old(outbox)[e.id][e.sequence - 1 := OutboxFailed]] else old(outbox)
    {
      ghost var w := run.world;
      marked := Mark(e, OutboxFailed);
      run := Extend(run, Fails(who), Proceed(if marked then Publisher.WithStatus(w, e, OutboxFailed) else w, who, marked));
    }

    method PublishFirst(ghost who: nat, e: EventRef) returns (marked: bool)
      requires Valid() && Busy(run.world, who) && run.world.workers[who].todo[0] == e
      requires run.world.workers[who].planned && run.world.workers[who].jobs == []
      modifies this
      ensures Valid() && Steps(Publishes(who)) && inserted == old(inserted)
      ensures marked <==> Exists(old(run).world, e) && !StatusOf(old(run).world, e).OutboxPublished?
      ensures run.world.workers == old(run).world.workers[who := AfterFirst(old(run).world.workers[who], marked)]
      ensures outbox == if marked then old(outbox)[e.id := old(outbox)[e.id][e.sequence - 1 := OutboxPublished]] else old(outbox)
    {
      ghost var w := run.world;
      marked := Mark(e, OutboxPublished);
      run := Extend(run, Publishes(who), Proceed(if marked then Publisher.WithStatus(w, e, OutboxPublished) else w, who, marked));
    }

    method PlanFirst(ghost who: nat, ghost jobs: seq<JobRef>)
      requires Valid() && Busy(run.world, who) && !run.world.workers[who].planned
      requires forall i | 0 <= i < |jobs| :: jobs[i].event == run.world.workers[who].todo[0]
      modifies this`run
      ensures Valid() && Steps(Plans(who, jobs))
      ensures run.world.workers == old(run).world.workers[who := Worker(old(run).world.workers[who].todo, true, jobs)]
    {
      run := Extend(run, Plans(who, jobs), Set(run.world, who, Worker(run.world.workers[who].todo, true, jobs)));
    }

    method EnqueueFirst(ghost who: nat, job: JobRef)
      requires Valid() && Busy(run.world, who) && run.world.workers[who].planned
      requires run.world.workers[who].jobs != [] && run.world.workers[who].jobs[0] == job
      modifies this
      ensures Valid() && Steps(Enqueues(who)) && outbox == old(outbox)
      ensures inserted == if job in old(inserted) then old(inserted) else old(inserted) + [job]
      ensures var x := old(run).world.workers[who];
              run.world.workers == old(run).world.workers[who := Worker(x.todo, true, x.jobs[1..])]
    {
      ghost var w := run.world;
      if job !in inserted {
        inserted := inserted + [job];
      }
      run := Extend(run, Enqueues(who),
                    Set(Inserted(w, job), who, Worker(w.workers[who].todo, true, w.workers[who].jobs[1..])));
    }
  }

  function AfterFirst(x: Worker, marked: bool): Worker {
    if marked && x.todo != [] then Worker(x.todo[1..], false, []) else RESTING
  }

  lemma HeadIsFirst(w: World, id: MatchId, k: nat)
    requires id in w.outbox && k <= |w.outbox[id]| && (forall i | 0 <= i < k :: w.outbox[id][i].OutboxPublished?)
    requires k < |w.outbox[id]| ==> !w.outbox[id][k].OutboxPublished?
    ensures k < |w.outbox[id]| && w.outbox[id][k].OutboxPending? ==> IsHead(w, EventRef(id, k + 1))
    ensures forall e | IsHead(w, e) && e.id == id :: e == EventRef(id, k + 1)
  {}

  // ----- RunOnce

  predicate Later(b: Behaviour, b': Behaviour) { b' == b || (b'.Extend? && Later(b, b'.before)) }

  lemma {:induction false} LaterChain(x: Behaviour, y: Behaviour, z: Behaviour)
    requires Later(x, y) && (z == y || (z.Extend? && z.before == y))
    ensures Later(x, z)
  {}

  /** What becomes of a listed event: published if it can be planned and all its jobs queued. */
  function StatusAfter(e: EventRef, plans: map<EventRef, seq<JobRef>>, broken: set<JobRef>): OutboxStatus {
    if e in plans && forall i | 0 <= i < |plans[e]| :: plans[e][i] !in broken then OutboxPublished else OutboxFailed
  }

  /** The job is queued before the first one that is refused. */
  predicate Reached(jobs: seq<JobRef>, broken: set<JobRef>, job: JobRef) {
    exists k :: 0 <= k < |jobs| && jobs[k] == job && forall l | 0 <= l <= k :: jobs[l] !in broken
  }

  /** The event can be planned, and all its jobs can be queued. */
  predicate Publishable(e: EventRef, plans: map<EventRef, seq<JobRef>>, broken: set<JobRef>) {
    e in plans && forall job | job in plans[e] :: job !in broken
  }

  /** Queues the jobs of the first event until one fails. */
  method EnqueueAll(q: EventOutbox, ghost who: nat, ghost rest: seq<EventRef>, e: EventRef, jobs: seq<JobRef>, broken: set<JobRef>)
    returns (failed: bool)
    requires q.Valid() && who in q.run.world.workers && q.run.world.workers[who] == Worker([e] + rest, false, [])
    requires forall i | 0 <= i < |jobs| :: jobs[i].event == e
    modifies q
    ensures q.Valid() && Later(old(q.run), q.run) && q.outbox == old(q.outbox) && who in q.run.world.workers
    ensures failed <==> exists i :: 0 <= i < |jobs| && jobs[i] in broken
    ensures q.run.world.workers[who].todo == [e] + rest
    ensures !failed ==> q.run.world.workers[who] == Worker([e] + rest, true, [])
    ensures forall job :: job in q.inserted <==> job in old(q.inserted) || Reached(jobs, broken, job)
    ensures old(q.inserted) <= q.inserted
  {
    hide Possible, Next, Later;
    ghost var start, last := q.run, q.run;
    LaterFromItself(start);
    q.PlanFirst(who, jobs);
    LaterChain(start, last, q.run);
    for i := 0 to |jobs|
      invariant q.Valid() && Later(start, q.run) && q.outbox == old(q.outbox) && who in q.run.world.workers
      invariant q.run.world.workers[who] == Worker([e] + rest, true, jobs[i..])
      invariant forall k | 0 <= k < i :: jobs[k] !in broken
      invariant forall job :: job in q.inserted <==> job in old(q.inserted) || exists k :: 0 <= k < i && jobs[k] == job
      invariant old(q.inserted) <= q.inserted
    {
      if jobs[i] in broken {
        assert forall job :: Reached(jobs, broken, job) <==> exists k :: 0 <= k < i && jobs[k] == job;
        return true;
      }
      last := q.run;
      assert jobs[i..][1..] == jobs[i + 1..];
      q.EnqueueFirst(who, jobs[i]);
      LaterChain(start, last, q.run);
    }
    return false;
  }

  lemma LaterFromItself(b: Behaviour)
    ensures Later(b, b)
  {}

  lemma {:induction false} LaterJoins(x: Behaviour, y: Behaviour, z: Behaviour)
    requires Later(x, y) && Later(y, z)
    ensures Later(x, z)
  {
    if z != y { LaterJoins(x, y, z.before); }
  }

  /** One event of the pass: planned, queued and marked. */
  method PublishEvent(q: EventOutbox, ghost who: nat, ghost rest: seq<EventRef>, e: EventRef, plans: map<EventRef, seq<JobRef>>,
                      broken: set<JobRef>)
    requires q.Valid() && who in q.run.world.workers && q.run.world.workers[who] == Worker([e] + rest, false, [])
    requires e.id in q.outbox && 1 <= e.sequence <= |q.outbox[e.id]| && !q.outbox[e.id][e.sequence - 1].OutboxPublished?
    requires forall i | e in plans && 0 <= i < |plans[e]| :: plans[e][i].event == e
    modifies q
    ensures q.Valid() && Later(old(q.run), q.run) && who in q.run.world.workers
    ensures q.run.world.workers[who] == Worker(rest, false, [])
    ensures q.outbox == old(q.outbox)[e.id := old(q.outbox)[e.id][e.sequence - 1 := StatusAfter(e, plans, broken)]]
    ensures forall job :: job in q.inserted <==> job in old(q.inserted) || (e in plans && Reached(plans[e], broken, job))
    ensures old(q.inserted) <= q.inserted
  {
    hide Possible, Next, Later;
    ghost var start, last := q.run, q.run;
    LaterFromItself(start);
    assert ([e] + rest)[1..] == rest;
    if e !in plans {
      var _ := q.FailFirst(who, e);
      LaterChain(start, last, q.run);
      return;
    }
    var failed := EnqueueAll(q, who, rest, e, plans[e], broken);
    last := q.run;
    if failed {
      var _ := q.FailFirst(who, e);
    } else {
      var _ := q.PublishFirst(who, e);
    }
    LaterChain(start, last, q.run);
  }

  /** The listed events, one after another. */
  method PublishAll(q: EventOutbox, ghost who: nat, heads: seq<EventRef>, plans: map<EventRef, seq<JobRef>>, broken: set<JobRef>)
    requires q.Valid() && who in q.run.world.workers && q.run.world.workers[who] == Worker(heads, false, [])
    requires forall e, i | e in plans && 0 <= i < |plans[e]| :: plans[e][i].event == e
    requires forall i | 0 <= i < |heads| :: Heads(q.outbox, heads[i])
    requires forall i, j | 0 <= i < j < |heads| :: heads[i].id != heads[j].id
    modifies q
    ensures q.Valid() && Later(old(q.run), q.run)
    ensures q.outbox.Keys == old(q.outbox).Keys && forall id | id in old(q.outbox) :: |q.outbox[id]| == |old(q.outbox)[id]|
    ensures forall id, k | id in old(q.outbox) && 0 <= k < |old(q.outbox)[id]| ::
              q.outbox[id][k] == if EventRef(id, k + 1) in heads then StatusAfter(EventRef(id, k + 1), plans, broken)
                                 else old(q.outbox)[id][k]
    ensures forall job :: job in q.inserted <==>
              job in old(q.inserted) || exists e :: e in heads && e in plans && Reached(plans[e], broken, job)
  {
    hide Possible, Next, Later, StatusAfter, Reached;
    ghost var start, was := q.run, q.outbox;
    LaterFromItself(start);
    for i := 0 to |heads|
      invariant q.Valid() && Later(start, q.run) && who in q.run.world.workers
      invariant q.run.world.workers[who] == Worker(heads[i..], false, [])
      invariant q.outbox.Keys == was.Keys && forall id | id in was :: |q.outbox[id]| == |was[id]|
      invariant forall id, k | id in was && 0 <= k < |was[id]| ::
                  q.outbox[id][k] == if EventRef(id, k + 1) in heads[..i] then StatusAfter(EventRef(id, k + 1), plans, broken)
                                     else was[id][k]
      invariant forall job :: job in q.inserted <==>
                  job in old(q.inserted) || exists e :: e in heads[..i] && e in plans && Reached(plans[e], broken, job)
    {
      var e := heads[i];
      assert heads[i..] == [e] + heads[i + 1..] && heads[..i + 1] == heads[..i] + [e];
      assert e !in heads[..i];
      ghost var last := q.run;
      PublishEvent(q, who, heads[i + 1..], e, plans, broken);
      LaterJoins(start, last, q.run);
    }
    assert heads[..|heads|] == heads;
  }

  /** RunOnce: of each match it takes the first unpublished event if that is pending, all of them
      if they are fewer than a hundred. Each is published or marked failed, and nothing else
      changes its status; what is queued are its jobs up to the first that is refused.
      `plans` holds the events that can be planned, `broken` the jobs the queue refuses. */
  method RunOnce(q: EventOutbox, ghost who: nat, plans: map<EventRef, seq<JobRef>>, broken: set<JobRef>)
    returns (heads: seq<EventRef>)
    requires q.Valid() && who in q.run.world.workers && q.run.world.workers[who] == RESTING
    requires forall e, i | e in plans && 0 <= i < |plans[e]| :: plans[e][i].event == e
    modifies q
    ensures q.Valid() && Later(old(q.run), q.run)
    ensures forall e | e in heads :: Heads(old(q.outbox), e)
    ensures |heads| < 100 ==> forall e | Heads(old(q.outbox), e) :: e in heads
    ensures q.outbox.Keys == old(q.outbox).Keys
    ensures forall id | id in old(q.outbox) :: |q.outbox[id]| == |old(q.outbox)[id]|
    ensures forall id, k | id in old(q.outbox) && 0 <= k < |old(q.outbox)[id]| ::
              q.outbox[id][k] ==
                if EventRef(id, k + 1) !in heads then old(q.outbox)[id][k]
                else if Publishable(EventRef(id, k + 1), plans, broken) then OutboxPublished else OutboxFailed
    ensures forall job :: job in q.inserted <==>
              job in old(q.inserted) || exists e :: e in heads && e in plans && Reached(plans[e], broken, job)
  {
    hide Possible, Next, Later, EarlierPublished, StatusAfter, Reached, Publishable, Heads, IsHead;
    ghost var start := q.run;
    heads := q.ListUnpublished(who);
    ghost var listed := q.run;
    forall e ensures IsHead(start.world, e) <==> Heads(start.world.outbox, e) { HeadsAreHeads(start.world, e); }
    LaterFromItself(start);
    LaterChain(start, start, listed);
    PublishAll(q, who, heads, plans, broken);
    LaterJoins(start, listed, q.run);
    forall e | e in heads { StatusTells(e, plans, broken); }
  }

  /** The event is pending, and every earlier one of its match is published. */
  predicate Heads(outbox: map<MatchId, Statuses>, e: EventRef) {
    && e.id in outbox && 1 <= e.sequence <= |outbox[e.id]| && outbox[e.id][e.sequence - 1].OutboxPending?
    && forall k | 0 <= k < e.sequence - 1 :: outbox[e.id][k].OutboxPublished?
  }

  lemma HeadsAreHeads(w: World, e: EventRef)
    ensures IsHead(w, e) <==> Heads(w.outbox, e)
  {}

  lemma StatusTells(e: EventRef, plans: map<EventRef, seq<JobRef>>, broken: set<JobRef>)
    ensures StatusAfter(e, plans, broken) == if Publishable(e, plans, broken) then OutboxPublished else OutboxFailed
  {}
}
