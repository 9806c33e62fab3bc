/** When a match has one job in flight (internal/ircpublisher/publisher.go 48-141, internal/
    persistence/irc_jobs.go 266-363): the queue keeps channels apart and sorts by sequence and
    creation, so the promise rests on where and when the jobs of a match are stored. */
module JobFlights {
  import opened JobDispatch
  import Pub = Publisher
  import Q = IrcJobs

  predicate Flying(jobs: Q.Jobs, id: Q.JobId) { id in jobs && Q.InFlight(jobs[id]) }

  /** At most one job of each match is being sent or awaits its acknowledgement. */
  predicate OneFlightEach(x: Dispatch, posts: Posts) {
    forall a, b | a in posts && b in posts && a.event.id == b.event.id
                  && Flying(x.queue.world.jobs, posts[a].id) && Flying(x.queue.world.jobs, posts[b].id) :: a == b
  }

  /** The queue holds the second job back until the first one is terminal. */
  predicate Precedes(posts: Posts, a: Pub.JobRef, b: Pub.JobRef)
    requires a in posts && b in posts
  {
    posts[a].channel == posts[b].channel && Earlier(posts, a, b)
  }

  /** The jobs of each match are inserted in the order of the queue, into one channel. */
  predicate MatchSorted(inserted: seq<Pub.JobRef>, posts: Posts) {
    forall p, q | 0 <= p < q < |inserted| && inserted[p] in posts && inserted[q] in posts
                  && inserted[p].event.id == inserted[q].event.id ::
      Precedes(posts, inserted[p], inserted[q])
  }

  // ----- what keeps a job on the ground

  /** Not in flight, and no worker has re-read it as a head. */
  predicate Resting(w: Q.World, id: Q.JobId) {
    && !Flying(w.jobs, id)
    && forall who | who in w.workers && w.workers[who].Seen? && w.workers[who].candidates != [] ::
         w.workers[who].candidates[0] != id
  }

  predicate Open(jobs: Q.Jobs, id: Q.JobId) { id in jobs && !Q.Terminal(jobs[id]) }

  /** What a worker re-read under its lock was an open job. */
  predicate SightsAreOpen(w: Q.World) {
    forall who | who in w.workers && w.workers[who].Seen? ::
      && w.workers[who].candidates != [] && w.workers[who].candidates[0] in w.jobs
      && !(w.workers[who].status.JobAcknowledged? || w.workers[who].status.JobCancelled?)
  }

  predicate Guarded(w: Q.World, inserted: seq<Pub.JobRef>, posts: Posts) {
    forall p, q | 0 <= p < q < |inserted| && inserted[p] in posts && inserted[q] in posts
                  && inserted[p].event.id == inserted[q].event.id && Open(w.jobs, posts[inserted[p]].id) ::
      Resting(w, posts[inserted[q]].id)
  }

  lemma WorkersKeepSights(w: Q.World, w': Q.World, move: Q.Move)
    requires Q.Next(w, w', move) && !move.Enqueues? && SightsAreOpen(w)
    ensures SightsAreOpen(w')
  {
    hide Q.Due, Q.CanLock;
  }

  lemma TerminalStays(w: Q.World, w': Q.World, move: Q.Move, id: Q.JobId)
    requires Q.Next(w, w', move) && !move.Enqueues? && SightsAreOpen(w) && Open(w'.jobs, id)
    ensures Open(w.jobs, id)
  {
    hide Q.Due, Q.CanLock, Q.IsHead, Q.FoundHead;
  }

  // Only a worker that re-reads the job as the head gets it going.
  lemma RestEnds(w: Q.World, w': Q.World, move: Q.Move, id: Q.JobId)
    requires Q.Next(w, w', move) && !move.Enqueues? && Resting(w, id)
    ensures Resting(w', id) || Q.IsHead(w.jobs, id)
  {
    hide Q.Due, Q.CanLock, Q.IsHead;
  }

  lemma HeadHasNoneBefore(jobs: Q.Jobs, a: Pub.JobRef, b: Pub.JobRef, posts: Posts)
    requires a in posts && b in posts && Holds(jobs, a, posts[a]) && Holds(jobs, b, posts[b])
    requires Precedes(posts, a, b) && Q.IsHead(jobs, posts[b].id)
    ensures !Open(jobs, posts[a].id)
  {}

  lemma WorkersKeepGuard(w: Q.World, w': Q.World, move: Q.Move, inserted: seq<Pub.JobRef>, posts: Posts)
    requires Q.Next(w, w', move) && !move.Enqueues? && SightsAreOpen(w) && Guarded(w, inserted, posts)
    requires Mirrors(w.jobs, inserted, posts) && MatchSorted(inserted, posts)
    ensures Guarded(w', inserted, posts)
  {
    hide Q.Next, Resting, SightsAreOpen, Open, Precedes, Q.IsHead;
    forall p, q | 0 <= p < q < |inserted| && inserted[p] in posts && inserted[q] in posts
                  && inserted[p].event.id == inserted[q].event.id && Open(w'.jobs, posts[inserted[p]].id)
      ensures Resting(w', posts[inserted[q]].id)
    {
      TerminalStays(w, w', move, posts[inserted[p]].id);
      RestEnds(w, w', move, posts[inserted[q]].id);
      if Q.IsHead(w.jobs, posts[inserted[q]].id) { HeadHasNoneBefore(w.jobs, inserted[p], inserted[q], posts); }
    }
  }

  lemma NewJobRests(w: Q.World, id: Q.JobId, job: Q.Job, other: Q.JobId)
    requires SightsAreOpen(w) && id !in w.jobs
    ensures SightsAreOpen(Upserted(w, id, job)) && Resting(Upserted(w, id, job), id)
    ensures other != id && Open(Upserted(w, id, job).jobs, other) ==> Open(w.jobs, other)
    ensures Resting(w, other) ==> Resting(Upserted(w, id, job), other)
  {}

  lemma InsertionKeepsGuard(w: Q.World, inserted: seq<Pub.JobRef>, job: Pub.JobRef, posts: Posts)
    requires SightsAreOpen(w) && Guarded(w, inserted, posts) && Mirrors(w.jobs, inserted, posts)
    requires job in posts && posts[job].id !in w.jobs
    ensures SightsAreOpen(Upserted(w, posts[job].id, JobFor(job, posts[job])))
    ensures Guarded(Upserted(w, posts[job].id, JobFor(job, posts[job])), inserted + [job], posts)
  {
    hide Resting, SightsAreOpen, Open, Upserted;
    var w', all := Upserted(w, posts[job].id, JobFor(job, posts[job])), inserted + [job];
    NewJobRests(w, posts[job].id, JobFor(job, posts[job]), posts[job].id);
    forall p, q | 0 <= p < q < |all| && all[p] in posts && all[q] in posts
                  && all[p].event.id == all[q].event.id && Open(w'.jobs, posts[all[p]].id)
      ensures Resting(w', posts[all[q]].id)
    {
      if q < |inserted| {
        assert Holds(w.jobs, inserted[p], posts[inserted[p]]);
        NewJobRests(w, posts[job].id, JobFor(job, posts[job]), posts[inserted[p]].id);
        NewJobRests(w, posts[job].id, JobFor(job, posts[job]), posts[inserted[q]].id);
      }
    }
  }

  lemma ShorterIsSorted(inserted: seq<Pub.JobRef>, job: Pub.JobRef, posts: Posts)
    requires MatchSorted(inserted + [job], posts)
    ensures MatchSorted(inserted, posts)
  {
    var all := inserted + [job];
    forall p, q | 0 <= p < q < |inserted| && inserted[p] in posts && inserted[q] in posts
                  && inserted[p].event.id == inserted[q].event.id
      ensures Precedes(posts, inserted[p], inserted[q])
    {
      assert Precedes(posts, all[p], all[q]);
    }
  }

  lemma {:induction false} FlightsAreGuarded(x: Dispatch, posts: Posts)
    requires Happens(x, posts) && DistinctIds(posts) && MatchSorted(x.publishers.world.inserted, posts)
    ensures SightsAreOpen(x.queue.world) && Guarded(x.queue.world, x.publishers.world.inserted, posts)
  {
    hide Pub.Next, Q.Next, Mirrors, DistinctIds, Guarded, MatchSorted, Upserted;
    match x {
      case Opened(p, q) => NothingIsGuarded(q.world, posts);
      case Published(before, p, q) =>
        if p.world.inserted != p.before.world.inserted {
          InsertionAppends(p.before.world, p.world, p.move);
          ShorterIsSorted(p.before.world.inserted, Newest(p.world), posts);
          FlightsAreGuarded(before, posts);
          QueueMirrors(before, posts);
          MirrorsMore(before.queue.world, p.before.world.inserted, Newest(p.world), posts);
          InsertionKeepsGuard(before.queue.world, p.before.world.inserted, Newest(p.world), posts);
        } else {
          FlightsAreGuarded(before, posts);
        }
      case Worked(before, p, q) =>
        FlightsAreGuarded(before, posts);
        QueueMirrors(before, posts);
        WorkersKeepSights(q.before.world, q.world, q.move);
        WorkersKeepGuard(q.before.world, q.world, q.move, p.world.inserted, posts);
    }
  }

  lemma NothingIsGuarded(w: Q.World, posts: Posts)
    requires Q.Initial(w)
    ensures SightsAreOpen(w) && Guarded(w, [], posts)
  {}

  lemma IsInserted(x: Dispatch, posts: Posts, a: Pub.JobRef) returns (p: nat)
    requires Mirrors(x.queue.world.jobs, x.publishers.world.inserted, posts) && DistinctIds(posts)
    requires a in posts && posts[a].id in x.queue.world.jobs
    ensures p < |x.publishers.world.inserted| && x.publishers.world.inserted[p] == a
  {
    var inserted := x.publishers.world.inserted;
    p :| p < |inserted| && inserted[p] in posts && posts[inserted[p]].id == posts[a].id;
  }

  /** Whatever else shares its channel: a match whose jobs are inserted into one channel, in
      the order of the queue, never has two of them in flight. */
  lemma OneJobOfAMatchInFlight(x: Dispatch, posts: Posts)
    requires Happens(x, posts) && DistinctIds(posts) && MatchSorted(x.publishers.world.inserted, posts)
    ensures OneFlightEach(x, posts)
  {
    hide Happens, DistinctIds, MatchSorted, Mirrors, SightsAreOpen;
    QueueMirrors(x, posts);
    FlightsAreGuarded(x, posts);
    forall a, b | a in posts && b in posts && a.event.id == b.event.id
                  && Flying(x.queue.world.jobs, posts[a].id) && Flying(x.queue.world.jobs, posts[b].id)
      ensures a == b
    {
      var p := IsInserted(x, posts, a);
      var q := IsInserted(x, posts, b);
    }
  }

  // ----- when plans are stable

  type Plan = map<Pub.EventRef, seq<Pub.JobRef>>

  /** Planned jobs are jobs of the event, and stored as `posts` says. */
  predicate WellPlanned(plan: Plan, posts: Posts) {
    forall e, i | e in plan && 0 <= i < |plan[e]| :: plan[e][i].event == e && plan[e][i] in posts
  }

  /** The event and those before it can be planned; otherwise publishing never gets there. */
  predicate Reachable(plan: Plan, e: Pub.EventRef) {
    e.sequence >= 1 && forall k | 1 <= k <= e.sequence :: Pub.EventRef(e.id, k) in plan
  }

  ghost predicate OneChannelEach(plan: Plan, posts: Posts)
    requires WellPlanned(plan, posts)
  {
    forall e, f, i, j | Reachable(plan, e) && Reachable(plan, f) && e in plan && f in plan && e.id == f.id
                        && 0 <= i < |plan[e]| && 0 <= j < |plan[f]| ::
      posts[plan[e][i]].channel == posts[plan[f][j]].channel
  }

  /** Different jobs of one event are created at strictly increasing moments, in plan order;
      a repeated job counts where it first occurs. */
  ghost predicate PlansTick(plan: Plan, posts: Posts)
    requires WellPlanned(plan, posts)
  {
    forall e, i, j | Reachable(plan, e) && e in plan && 0 <= i < j < |plan[e]| && plan[e][j] !in plan[e][..j] ::
      posts[plan[e][i]].createdAt < posts[plan[e][j]].createdAt
  }

  ghost predicate InPlanOrder(plan: Plan, posts: Posts)
    requires WellPlanned(plan, posts)
  {
    OneChannelEach(plan, posts) && PlansTick(plan, posts)
  }

  // The jobs a publisher has left end the plan, and what it enqueued is in the queue.
  predicate HasEnqueued(w: Pub.World, x: Pub.Worker, plan: Plan) {
    x.planned && x.todo != [] ==>
      && x.todo[0] in plan && |x.jobs| <= |plan[x.todo[0]]|
      && var done := |plan[x.todo[0]]| - |x.jobs|;
         x.jobs == plan[x.todo[0]][done..] && Pub.AllIn(plan[x.todo[0]][..done], w.inserted)
  }

  /** A job is inserted after everything planned before it. */
  predicate PlanFirst(inserted: seq<Pub.JobRef>, plan: Plan) {
    forall q, e, i, j | 0 <= q < |inserted| && e in plan && 0 <= i < j < |plan[e]|
                        && plan[e][j] == inserted[q] && plan[e][j] !in plan[e][..j] ::
      plan[e][i] in inserted[..q]
  }

  predicate Distinct(inserted: seq<Pub.JobRef>) { forall p, q | 0 <= p < q < |inserted| :: inserted[p] != inserted[q] }

  ghost predicate FollowsPlan(w: Pub.World, plan: Plan) {
    && (forall who | who in w.workers :: HasEnqueued(w, w.workers[who], plan))
    && PlanFirst(w.inserted, plan) && Distinct(w.inserted)
  }

  lemma PublishersHaveEnqueued(w: Pub.World, w': Pub.World, move: Pub.Move, plan: Plan)
    requires (forall who | who in w.workers :: HasEnqueued(w, w.workers[who], plan)) && Pub.Next(w, w', move)
    requires move.Plans? ==>
               Pub.Busy(w, move.who) && w.workers[move.who].todo[0] in plan && move.jobs == plan[w.workers[move.who].todo[0]]
    ensures forall who | who in w'.workers :: HasEnqueued(w', w'.workers[who], plan)
  {
    hide Pub.IsHead;
    forall who | who in w'.workers ensures HasEnqueued(w', w'.workers[who], plan) {
      assert who in w.workers && HasEnqueued(w, w.workers[who], plan);
      if move.Enqueues? && who == move.who {
        var x := w.workers[who];
        var jobs, done := plan[x.todo[0]], |plan[x.todo[0]]| - |x.jobs|;
        assert jobs[done..][0] == jobs[done] && jobs[done..][1..] == jobs[done + 1..];
        assert jobs[..done + 1] == jobs[..done] + [jobs[done]];
      }
    }
  }

  lemma PlanStaysFirst(inserted: seq<Pub.JobRef>, plan: Plan, e: Pub.EventRef, done: nat)
    requires PlanFirst(inserted, plan) && Distinct(inserted)
    requires e in plan && done < |plan[e]| && Pub.AllIn(plan[e][..done], inserted) && plan[e][done] !in inserted
    requires forall f, i | f in plan && 0 <= i < |plan[f]| :: plan[f][i].event == f
    ensures PlanFirst(inserted + [plan[e][done]], plan) && Distinct(inserted + [plan[e][done]])
  {
    var all := inserted + [plan[e][done]];
    forall q, f, i, j | 0 <= q < |all| && f in plan && 0 <= i < j < |plan[f]|
                        && plan[f][j] == all[q] && plan[f][j] !in plan[f][..j]
      ensures plan[f][i] in all[..q]
    {
      if q < |inserted| {
        assert all[..q] == inserted[..q];
      } else {
        assert all[..q] == inserted && f == e;
        assert plan[e][..done][i] in inserted;
      }
    }
  }

  lemma {:induction false} PublishersFollowPlan(b: Pub.Behaviour, plan: Plan)
    requires Pub.Possible(b) && Pub.PlansAre(b, plan)
    requires forall e, i | e in plan && 0 <= i < |plan[e]| :: plan[e][i].event == e
    ensures FollowsPlan(b.world, plan)
  {
    hide Pub.Next, PlanFirst, Distinct, HasEnqueued, Pub.AllIn;
    match b
    case Begin(w) => NothingIsEnqueued(w, plan);
    case Extend(before, move, w) =>
      PublishersFollowPlan(before, plan);
      PublishersHaveEnqueued(before.world, w, move, plan);
      if w.inserted != before.world.inserted { InsertionFollowsPlan(before.world, w, move, plan); }
  }

  lemma NothingIsEnqueued(w: Pub.World, plan: Plan)
    requires Pub.Initial(w)
    ensures FollowsPlan(w, plan)
  {}

  lemma InsertionFollowsPlan(w: Pub.World, w': Pub.World, move: Pub.Move, plan: Plan)
    requires FollowsPlan(w, plan) && Pub.Next(w, w', move) && w'.inserted != w.inserted
    requires forall f, i | f in plan && 0 <= i < |plan[f]| :: plan[f][i].event == f
    ensures PlanFirst(w'.inserted, plan) && Distinct(w'.inserted)
  {
    hide PlanFirst, Distinct, Pub.AllIn, Pub.IsHead;
    var x := w.workers[move.who];
    assert HasEnqueued(w, x, plan);
    var jobs, done := plan[x.todo[0]], |plan[x.todo[0]]| - |x.jobs|;
    assert jobs[done..][0] == jobs[done];
    PlanStaysFirst(w.inserted, plan, x.todo[0], done);
  }

  lemma FirstIndex(jobs: seq<Pub.JobRef>, job: Pub.JobRef) returns (k: nat)
    requires job in jobs
    ensures k < |jobs| && jobs[k] == job && job !in jobs[..k]
    decreases |jobs|
  {
    if job in jobs[..|jobs| - 1] {
      k := FirstIndex(jobs[..|jobs| - 1], job);
      assert jobs[..|jobs| - 1][..k] == jobs[..k];
    } else {
      k := |jobs| - 1;
    }
  }

  lemma InsertedIsReachable(w: Pub.World, plan: Plan, p: nat)
    requires Pub.Sound(w) && Pub.Complete(w, plan) && p < |w.inserted|
    ensures var e := w.inserted[p].event; Reachable(plan, e) && e in plan && w.inserted[p] in plan[e]
  {
    var e := w.inserted[p].event;
    forall k | 1 <= k <= e.sequence ensures Pub.EventRef(e.id, k) in plan {
      if k < e.sequence {
        var f := Pub.EventRef(e.id, k);
        assert Pub.Exists(w, f) && Pub.StatusOf(w, f).OutboxPublished?;
      }
    }
  }

  lemma PlanOrderSorts(w: Pub.World, plan: Plan, posts: Posts)
    requires WellPlanned(plan, posts) && InPlanOrder(plan, posts)
    requires FollowsPlan(w, plan) && Pub.Sound(w) && Pub.Complete(w, plan) && Pub.InOrder(w.inserted)
    ensures MatchSorted(w.inserted, posts)
  {
    hide Pub.Sound, Pub.Complete, HasEnqueued, Reachable;
    forall p, q | 0 <= p < q < |w.inserted| && w.inserted[p] in posts && w.inserted[q] in posts
                  && w.inserted[p].event.id == w.inserted[q].event.id
      ensures Precedes(posts, w.inserted[p], w.inserted[q])
    {
      InsertedIsReachable(w, plan, p);
      InsertedIsReachable(w, plan, q);
      var i := FirstIndex(plan[w.inserted[p].event], w.inserted[p]);
      var j := FirstIndex(plan[w.inserted[q].event], w.inserted[q]);
      if w.inserted[p].event == w.inserted[q].event && j < i {
        assert false;
      }
    }
  }

  /** With stable plans that keep the order, each match has one job in flight at a time. */
  lemma PlanOrderIsSafe(x: Dispatch, posts: Posts, plan: Plan)
    requires Happens(x, posts) && DistinctIds(posts) && WellPlanned(plan, posts) && Pub.PlansAre(x.publishers, plan)
    requires InPlanOrder(plan, posts)
    ensures OneFlightEach(x, posts)
  {
    hide Happens, Pub.Possible, Pub.PlansAre, DistinctIds, InPlanOrder, MatchSorted, OneFlightEach, FollowsPlan,
         Pub.Sound, Pub.Complete;
    HappensPossibly(x, posts);
    Pub.PublishedIsAPrefix(x.publishers);
    Pub.JobsEnterInOrder(x.publishers, plan);
    PublishersFollowPlan(x.publishers, plan);
    PlanOrderSorts(x.publishers.world, plan, posts);
    OneJobOfAMatchInFlight(x, posts);
  }
}
