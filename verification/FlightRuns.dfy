/** The other half: a planned job that nothing holds back behind an earlier one of its match
    can be sent while the earlier one is in flight, by one publisher and one worker. */
module FlightRuns {
  import opened JobDispatch
  import opened JobFlights
  import C = CommandDocuments
  import P = JobPaths
  import Pub = Publisher
  import Q = IrcJobs

  // ----- one step of the publishers

  ghost predicate Going(x: Dispatch, posts: Posts, plan: Plan) { Happens(x, posts) && Pub.PlansAre(x.publishers, plan) }

  lemma Publishes(x: Dispatch, posts: Posts, plan: Plan, move: Pub.Move, w: Pub.World) returns (x': Dispatch)
    requires Going(x, posts, plan) && Pub.Next(x.publishers.world, w, move) && w.inserted == x.publishers.world.inserted
    requires move.Plans? ==>
               && Pub.Busy(x.publishers.world, move.who)
               && var e := x.publishers.world.workers[move.who].todo[0]; e in plan && move.jobs == plan[e]
    ensures Going(x', posts, plan) && x'.publishers.world == w && x'.queue == x.queue
  {
    hide Pub.Next;
    HappensPossibly(x, posts);
    x' := Published(x, Pub.Extend(x.publishers, move, w), x.queue);
  }

  lemma Inserts(x: Dispatch, posts: Posts, plan: Plan, w: Pub.World, job: Pub.JobRef) returns (x': Dispatch)
    requires Going(x, posts, plan) && Pub.Next(x.publishers.world, w, Pub.Enqueues(0)) && job in posts
    requires w.inserted == x.publishers.world.inserted + [job]
    ensures Going(x', posts, plan) && x'.publishers.world == w
    ensures x'.queue.world == Upserted(x.queue.world, posts[job].id, JobFor(job, posts[job]))
  {
    hide Pub.Next, Upserted;
    HappensPossibly(x, posts);
    var post, p := posts[job], Pub.Extend(x.publishers, Pub.Enqueues(0), w);
    var entry := JobFor(job, post);
    assert Newest(w) == job;
    x' := Published(x, p, Q.Extend(x.queue, Q.Enqueues(post.id, entry), Upserted(x.queue.world, post.id, entry)));
  }

  // ----- how far the publisher has come with the events of a match

  function Marks(total: nat, n: nat): seq<C.OutboxStatus> {
    seq(total, k => if k < n then C.OutboxPublished else C.OutboxPending)
  }

  /** The first `i` jobs of event `n` and those of the events before it are inserted. */
  ghost predicate Stage(x: Dispatch, posts: Posts, plan: Plan, last: Pub.EventRef, n: nat, i: nat) {
    && Going(x, posts, plan) && 0 in x.queue.world.workers
    && 1 <= n <= last.sequence && Pub.EventRef(last.id, n) in plan && i <= |plan[Pub.EventRef(last.id, n)]|
    && Standing(x.publishers.world, plan, last, Pub.EventRef(last.id, n), i)
  }

  ghost predicate Standing(w: Pub.World, plan: Plan, last: Pub.EventRef, e: Pub.EventRef, i: nat)
    requires e in plan && i <= |plan[e]| && e.sequence >= 1
  {
    && w.outbox == map[last.id := Marks(last.sequence, e.sequence - 1)]
    && w.workers == map[0 := Pub.Worker([e], true, plan[e][i..])]
    && Pub.AllIn(plan[e][..i], w.inserted)
    && forall job | job in w.inserted :: job.event.sequence < e.sequence || job in plan[e][..i]
  }

  /** Jobs are only added, and wait. */
  predicate Grown(jobs: Q.Jobs, jobs': Q.Jobs) {
    && (forall id | id in jobs :: id in jobs' && jobs'[id] == jobs[id])
    && (forall id | id in jobs' && id !in jobs :: jobs'[id].status.JobPending?)
  }

  lemma EventsAreCommitted(w: Pub.World, w': Pub.World, last: Pub.EventRef)
    requires w.outbox == map[] && w' == w.(outbox := map[last.id := Marks(last.sequence, 0)])
    ensures Pub.Next(w, w', Pub.CommandCommitted(last.id, last.sequence))
  {
    assert [] + seq(last.sequence, _ => C.OutboxPending) == Marks(last.sequence, 0);
  }

  // An idle publisher lists the event and plans it.
  lemma EventIsPlanned(x: Dispatch, posts: Posts, plan: Plan, last: Pub.EventRef, n: nat) returns (x': Dispatch)
    requires WellPlanned(plan, posts) && Going(x, posts, plan) && 0 in x.queue.world.workers && 1 <= n <= last.sequence
    requires Pub.EventRef(last.id, n) in plan
    requires x.publishers.world.outbox == map[last.id := Marks(last.sequence, n - 1)]
    requires x.publishers.world.workers == map[0 := Pub.RESTING]
    requires forall job | job in x.publishers.world.inserted :: job.event.sequence < n
    ensures Stage(x', posts, plan, last, n, 0) && x'.queue == x.queue
  {
    hide Going;
    var w, e := x.publishers.world, Pub.EventRef(last.id, n);
    assert Pub.IsHead(w, e);
    var listed := w.(workers := map[0 := Pub.Worker([e], false, [])]);
    x' := Publishes(x, posts, plan, Pub.Lists(0, [e]), listed);
    x' := Publishes(x', posts, plan, Pub.Plans(0, plan[e]), listed.(workers := map[0 := Pub.Worker([e], true, plan[e])]));
    assert plan[e][0..] == plan[e];
  }

  lemma Starts(posts: Posts, plan: Plan, last: Pub.EventRef) returns (x: Dispatch)
    requires WellPlanned(plan, posts) && last.sequence >= 1 && Pub.EventRef(last.id, 1) in plan
    ensures Stage(x, posts, plan, last, 1, 0) && x.queue.world.jobs == map[]
  {
    hide Stage;
    var w := Pub.World(map[], [], map[0 := Pub.RESTING]);
    x := Opened(Pub.Begin(w), Q.Begin(Q.World(map[], map[], {}, {}, map[0 := Q.Free])));
    var w' := w.(outbox := map[last.id := Marks(last.sequence, 0)]);
    EventsAreCommitted(w, w', last);
    x := Publishes(x, posts, plan, Pub.CommandCommitted(last.id, last.sequence), w');
    x := EventIsPlanned(x, posts, plan, last, 1);
  }

  lemma JobIsEnqueued(w: Pub.World, plan: Plan, last: Pub.EventRef, e: Pub.EventRef, i: nat) returns (w': Pub.World)
    requires e in plan && i < |plan[e]| && e.sequence >= 1 && Standing(w, plan, last, e, i)
    ensures Pub.Next(w, w', Pub.Enqueues(0)) && Standing(w', plan, last, e, i + 1)
    ensures w'.inserted == if plan[e][i] in w.inserted then w.inserted else w.inserted + [plan[e][i]]
  {
    hide Marks;
    assert plan[e][i..][0] == plan[e][i] && plan[e][i..][1..] == plan[e][i + 1..];
    assert plan[e][..i + 1] == plan[e][..i] + [plan[e][i]];
    w' := Pub.Set(Pub.Inserted(w, plan[e][i]), 0, Pub.Worker([e], true, plan[e][i + 1..]));
  }

  lemma NextJob(x: Dispatch, posts: Posts, plan: Plan, last: Pub.EventRef, n: nat, i: nat) returns (x': Dispatch)
    requires WellPlanned(plan, posts) && Stage(x, posts, plan, last, n, i) && i < |plan[Pub.EventRef(last.id, n)]|
    ensures Stage(x', posts, plan, last, n, i + 1) && Grown(x.queue.world.jobs, x'.queue.world.jobs)
  {
    hide Going, Pub.Next, Standing;
    var e := Pub.EventRef(last.id, n);
    var w := JobIsEnqueued(x.publishers.world, plan, last, e, i);
    if plan[e][i] in x.publishers.world.inserted {
      x' := Publishes(x, posts, plan, Pub.Enqueues(0), w);
    } else {
      x' := Inserts(x, posts, plan, w, plan[e][i]);
    }
  }

  lemma EventIsPublished(w: Pub.World, plan: Plan, last: Pub.EventRef, e: Pub.EventRef) returns (w': Pub.World)
    requires e in plan && 1 <= e.sequence <= last.sequence && e.id == last.id && Standing(w, plan, last, e, |plan[e]|)
    ensures Pub.Next(w, w', Pub.Publishes(0)) && w'.inserted == w.inserted && w'.workers == map[0 := Pub.RESTING]
    ensures w'.outbox == map[last.id := Marks(last.sequence, e.sequence)]
  {
    var was, now := Marks(last.sequence, e.sequence - 1), Marks(last.sequence, e.sequence);
    assert was[e.sequence - 1 := C.OutboxPublished] == now;
    w' := Pub.World(map[last.id := now], w.inserted, map[0 := Pub.RESTING]);
    assert [e][1..] == [] && plan[e][|plan[e]|..] == [] && Pub.Exists(w, e);
    assert w' == Pub.Proceed(Pub.WithStatus(w, e, C.OutboxPublished), 0, true);
  }

  lemma NextEvent(x: Dispatch, posts: Posts, plan: Plan, last: Pub.EventRef, n: nat) returns (x': Dispatch)
    requires WellPlanned(plan, posts) && Pub.EventRef(last.id, n) in plan && n < last.sequence
    requires Stage(x, posts, plan, last, n, |plan[Pub.EventRef(last.id, n)]|) && Pub.EventRef(last.id, n + 1) in plan
    ensures Stage(x', posts, plan, last, n + 1, 0) && x'.queue == x.queue
  {
    hide Going, Pub.Next, Marks;
    var e := Pub.EventRef(last.id, n);
    var w := EventIsPublished(x.publishers.world, plan, last, e);
    x' := Publishes(x, posts, plan, Pub.Publishes(0), w);
    x' := EventIsPlanned(x', posts, plan, last, n + 1);
  }

  lemma Advance(x: Dispatch, posts: Posts, plan: Plan, last: Pub.EventRef, n: nat, i: nat, n': nat, i': nat)
    returns (x': Dispatch)
    requires WellPlanned(plan, posts) && Reachable(plan, last) && Stage(x, posts, plan, last, n, i)
    requires n' <= last.sequence && (n < n' || (n == n' && i <= i'))
    requires Pub.EventRef(last.id, n') in plan && i' <= |plan[Pub.EventRef(last.id, n')]|
    ensures Stage(x', posts, plan, last, n', i') && Grown(x.queue.world.jobs, x'.queue.world.jobs)
    decreases n' - n, if n == n' then i' - i else |plan[Pub.EventRef(last.id, n)]| - i
  {
    hide Going, Standing, WellPlanned;
    if n == n' && i == i' {
      x' := x;
    } else if i < |plan[Pub.EventRef(last.id, n)]| {
      var y := NextJob(x, posts, plan, last, n, i);
      x' := Advance(y, posts, plan, last, n, i + 1, n', i');
    } else {
      var y := NextEvent(x, posts, plan, last, n);
      x' := Advance(y, posts, plan, last, n + 1, 0, n', i');
    }
  }

  // ----- two jobs of a match in flight

  lemma StandingJob(x: Dispatch, posts: Posts, plan: Plan, last: Pub.EventRef, n: nat, i: nat)
    requires DistinctIds(posts) && WellPlanned(plan, posts) && Stage(x, posts, plan, last, n, i + 1)
    ensures plan[Pub.EventRef(last.id, n)][i] in posts
    ensures Holds(x.queue.world.jobs, plan[Pub.EventRef(last.id, n)][i], posts[plan[Pub.EventRef(last.id, n)][i]])
  {
    hide Happens, DistinctIds, Pub.PlansAre;
    QueueMirrors(x, posts);
    var e, w := Pub.EventRef(last.id, n), x.publishers.world;
    assert plan[e][..i + 1][i] == plan[e][i];
    var p :| 0 <= p < |w.inserted| && w.inserted[p] == plan[e][i];
    assert Holds(x.queue.world.jobs, w.inserted[p], posts[w.inserted[p]]);
  }

  lemma NotYetThere(x: Dispatch, posts: Posts, plan: Plan, last: Pub.EventRef, n: nat, i: nat, b: Pub.JobRef)
    requires DistinctIds(posts) && WellPlanned(plan, posts) && Stage(x, posts, plan, last, n, i) && b in posts
    requires b.event.sequence > n || (b.event.sequence == n && b !in plan[Pub.EventRef(last.id, n)][..i])
    ensures posts[b].id !in x.queue.world.jobs
  {
    hide Happens, DistinctIds, Pub.PlansAre;
    QueueMirrors(x, posts);
    IdIsNew(x.queue.world.jobs, x.publishers.world.inserted, b, posts);
  }

  lemma StageStays(x: Dispatch, x': Dispatch, posts: Posts, plan: Plan, last: Pub.EventRef, n: nat, i: nat)
    requires Stage(x, posts, plan, last, n, i) && Happens(x', posts) && x'.publishers == x.publishers
    requires x'.queue.world.workers.Keys == x.queue.world.workers.Keys
    ensures Stage(x', posts, plan, last, n, i)
  {
    assert 0 in x'.queue.world.workers.Keys;
  }

  /** The first job is in flight, and the second is not planned yet. */
  lemma FirstIsSent(posts: Posts, plan: Plan, last: Pub.EventRef, n: nat, i: nat) returns (x: Dispatch)
    requires DistinctIds(posts) && WellPlanned(plan, posts) && Reachable(plan, last) && 1 <= n <= last.sequence
    requires i < |plan[Pub.EventRef(last.id, n)]|
    ensures Stage(x, posts, plan, last, n, i + 1)
    ensures plan[Pub.EventRef(last.id, n)][i] in posts
    ensures Flying(x.queue.world.jobs, posts[plan[Pub.EventRef(last.id, n)][i]].id)
  {
    hide Stage, Happens, DistinctIds;
    x := Starts(posts, plan, last);
    x := Advance(x, posts, plan, last, 1, 0, n, i + 1);
    StandingJob(x, posts, plan, last, n, i);
    var id := posts[plan[Pub.EventRef(last.id, n)][i]].id;
    StageHappens(x, posts, plan, last, n, i + 1);
    var y := P.Bring(x, posts, 0, id);
    StageStays(x, y, posts, plan, last, n, i + 1);
    x := y;
  }

  lemma StageHappens(x: Dispatch, posts: Posts, plan: Plan, last: Pub.EventRef, n: nat, i: nat)
    requires Stage(x, posts, plan, last, n, i)
    ensures Happens(x, posts) && Pub.PlansAre(x.publishers, plan) && 0 in x.queue.world.workers
  {}

  /** If a later job of a match is not held back behind an earlier one, both can fly. */
  lemma BothFly(posts: Posts, plan: Plan, last: Pub.EventRef, n: nat, i: nat, j: nat) returns (x: Dispatch)
    requires DistinctIds(posts) && WellPlanned(plan, posts) && Reachable(plan, last) && 1 <= n <= last.sequence
    requires last in plan && i < |plan[Pub.EventRef(last.id, n)]| && j < |plan[last]|
    requires n == last.sequence ==> plan[last][j] !in plan[last][..i + 1]
    requires plan[Pub.EventRef(last.id, n)][i] in posts && plan[last][j] in posts
    requires !Precedes(posts, plan[Pub.EventRef(last.id, n)][i], plan[last][j])
    ensures Happens(x, posts) && Pub.PlansAre(x.publishers, plan)
    ensures Flying(x.queue.world.jobs, posts[plan[Pub.EventRef(last.id, n)][i]].id)
    ensures Flying(x.queue.world.jobs, posts[plan[last][j]].id)
  {
    hide Stage, Happens, DistinctIds;
    var a, b := plan[Pub.EventRef(last.id, n)][i], plan[last][j];
    x := FirstIsSent(posts, plan, last, n, i);
    StandingJob(x, posts, plan, last, n, i);
    NotYetThere(x, posts, plan, last, n, i + 1, b);
    var y := Advance(x, posts, plan, last, n, i + 1, last.sequence, j + 1);
    StandingJob(y, posts, plan, last, last.sequence, j);
    StageHappens(y, posts, plan, last, last.sequence, j + 1);
    assert !P.Ahead(y.queue.world.jobs, posts[a].id, posts[b].id);
    x := P.Bring(y, posts, 0, posts[b].id);
    assert x.queue.world.jobs[posts[a].id] == y.queue.world.jobs[posts[a].id];
  }

  // ----- the exact condition

  /** A run that follows the plan and has two jobs of one match in flight. */
  ghost predicate TwoFly(x: Dispatch, posts: Posts, plan: Plan) {
    Happens(x, posts) && Pub.PlansAre(x.publishers, plan) && !OneFlightEach(x, posts)
  }

  lemma PairFlies(posts: Posts, plan: Plan, e: Pub.EventRef, f: Pub.EventRef, i: nat, j: nat) returns (x: Dispatch)
    requires DistinctIds(posts) && WellPlanned(plan, posts) && Reachable(plan, e) && Reachable(plan, f) && e.id == f.id
    requires e in plan && f in plan && i < |plan[e]| && j < |plan[f]| && e.sequence <= f.sequence
    requires e == f ==> plan[f][j] !in plan[f][..i + 1]
    requires plan[e][i] in posts && plan[f][j] in posts && !Precedes(posts, plan[e][i], plan[f][j])
    ensures TwoFly(x, posts, plan)
  {
    hide Happens, DistinctIds, Reachable, Precedes;
    SequenceIsPositive(plan, e);
    assert e == Pub.EventRef(f.id, e.sequence);
    assert plan[e][i] != plan[f][j] by {
      if e == f { assert plan[e][i] in plan[f][..i + 1]; }
    }
    x := BothFly(posts, plan, f, e.sequence, i, j);
  }

  lemma SequenceIsPositive(plan: Plan, e: Pub.EventRef)
    requires Reachable(plan, e)
    ensures 1 <= e.sequence
  {}

  lemma ChannelsDiffer(posts: Posts, plan: Plan, e: Pub.EventRef, f: Pub.EventRef, i: nat, j: nat) returns (x: Dispatch)
    requires DistinctIds(posts) && WellPlanned(plan, posts) && Reachable(plan, e) && Reachable(plan, f) && e.id == f.id
    requires e in plan && f in plan && i < |plan[e]| && j < |plan[f]|
    requires posts[plan[e][i]].channel != posts[plan[f][j]].channel
    ensures TwoFly(x, posts, plan)
  {
    hide Happens, DistinctIds, Reachable, TwoFly;
    if e.sequence < f.sequence {
      x := PairFlies(posts, plan, e, f, i, j);
    } else if f.sequence < e.sequence {
      x := PairFlies(posts, plan, f, e, j, i);
    } else {
      var i' := FirstIndex(plan[e], plan[e][i]);
      var j' := FirstIndex(plan[e], plan[e][j]);
      if i' < j' {
        x := PairFlies(posts, plan, e, f, i', j');
      } else {
        x := PairFlies(posts, plan, f, e, j', i');
      }
    }
  }

  lemma DisorderFlies(posts: Posts, plan: Plan) returns (x: Dispatch)
    requires DistinctIds(posts) && WellPlanned(plan, posts) && !InPlanOrder(plan, posts)
    ensures TwoFly(x, posts, plan)
  {
    hide Happens, DistinctIds, Reachable, TwoFly;
    if !OneChannelEach(plan, posts) {
      var e, f, i, j :| Reachable(plan, e) && Reachable(plan, f) && e in plan && f in plan && e.id == f.id
                        && 0 <= i < |plan[e]| && 0 <= j < |plan[f]|
                        && posts[plan[e][i]].channel != posts[plan[f][j]].channel;
      x := ChannelsDiffer(posts, plan, e, f, i, j);
    } else {
      var e, i, j :| Reachable(plan, e) && e in plan && 0 <= i < j < |plan[e]| && plan[e][j] !in plan[e][..j]
                     && posts[plan[e][i]].createdAt >= posts[plan[e][j]].createdAt;
      x := PairFlies(posts, plan, e, e, i, j);
    }
  }

  /** With stable plans, every run keeps at most one job of each match in flight if and only if,
      among the events that can be planned, the jobs of a match go to one channel and the jobs of
      an event are created at strictly increasing moments, in plan order. */
  lemma OneInFlightExactly(posts: Posts, plan: Plan)
    requires DistinctIds(posts) && WellPlanned(plan, posts)
    ensures InPlanOrder(plan, posts) <==>
            forall x | Happens(x, posts) && Pub.PlansAre(x.publishers, plan) :: OneFlightEach(x, posts)
  {
    hide Happens, DistinctIds, InPlanOrder, Pub.PlansAre, OneFlightEach;
    if InPlanOrder(plan, posts) {
      forall x | Happens(x, posts) && Pub.PlansAre(x.publishers, plan) ensures OneFlightEach(x, posts) {
        PlanOrderIsSafe(x, posts, plan);
      }
    } else {
      var x := DisorderFlies(posts, plan);
    }
  }
}
