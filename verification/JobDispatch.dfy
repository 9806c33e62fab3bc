/** Publishers and the job queue together (internal/ircpublisher/publisher.go 48-81, internal/
    persistence/irc_jobs.go 266-292): the publishers are the only ones that enqueue, and the
    queue stores a job with the moment it was inserted, in whatever order jobs come. */
module JobDispatch {
  import opened MatchModel
  import Pub = Publisher
  import Q = IrcJobs

  /** What Enqueue stores a planned job under. */
  datatype Post = Post(id: Q.JobId, channel: Q.Channel, createdAt: Time)

  type Posts = map<Pub.JobRef, Post>

  /** Job ids are derived from the event and differ. */
  predicate DistinctIds(posts: Posts) {
    forall x, y | x in posts && y in posts && x != y :: posts[x].id != posts[y].id
  }

  /** Each match keeps one channel, and no other match has it. The code does not see to it:
      planning reads the link of the room anew for each event. */
  predicate OwnChannels(posts: Posts) {
    forall x, y | x in posts && y in posts :: posts[x].channel == posts[y].channel <==> x.event.id == y.event.id
  }

  /** By sequence, then by the moment of insertion: the order the queue goes by. */
  predicate Earlier(posts: Posts, x: Pub.JobRef, y: Pub.JobRef)
    requires x in posts && y in posts
  {
    || x.event.sequence < y.event.sequence
    || (x.event.sequence == y.event.sequence && posts[x].createdAt < posts[y].createdAt)
  }

  function JobFor(x: Pub.JobRef, post: Post): Q.Job {
    Q.Job(post.channel, x.event.sequence, post.createdAt, Q.JobPending, 0, post.createdAt, true, 0, 0, None)
  }

  /** The upsert, which asks for no order. */
  function Upserted(w: Q.World, id: Q.JobId, job: Q.Job): Q.World {
    if id in w.jobs then w else w.(jobs := w.jobs[id := Q.Fresh(job)])
  }

  datatype Dispatch =
    | Opened(publishers: Pub.Behaviour, queue: Q.Behaviour)
    | Published(before: Dispatch, publishers: Pub.Behaviour, queue: Q.Behaviour)
    | Worked(before: Dispatch, publishers: Pub.Behaviour, queue: Q.Behaviour)

  function Newest(w: Pub.World): Pub.JobRef
    requires w.inserted != []
  {
    w.inserted[|w.inserted| - 1]
  }

  /** A new job of the publishers is upserted into the queue; workers go on in between. */
  predicate Happens(x: Dispatch, posts: Posts) {
    && Pub.Possible(x.publishers)
    && match x
       case Opened(p, q) => p.Begin? && q.Begin? && Q.Initial(q.world)
       case Published(before, p, q) =>
         && Happens(before, posts) && p.Extend? && p.before == before.publishers
         && if p.world.inserted == p.before.world.inserted then q == before.queue
            else
              && p.world.inserted != [] && Newest(p.world) in posts
              && var job, post := Newest(p.world), posts[Newest(p.world)];
                 q == Q.Extend(before.queue, Q.Enqueues(post.id, JobFor(job, post)),
                               Upserted(before.queue.world, post.id, JobFor(job, post)))
       case Worked(before, p, q) =>
         && Happens(before, posts) && p == before.publishers
         && q.Extend? && q.before == before.queue && !q.move.Enqueues? && Q.Next(q.before.world, q.world, q.move)
  }

  /** Within each channel the jobs are inserted in the order of the queue. */
  predicate Sorted(inserted: seq<Pub.JobRef>, posts: Posts) {
    forall i, j | 0 <= i < j < |inserted| && inserted[i] in posts && inserted[j] in posts
                  && posts[inserted[i]].channel == posts[inserted[j]].channel ::
      Earlier(posts, inserted[i], inserted[j])
  }

  /** The job comes after every other job of its channel so far. */
  predicate Follows(inserted: seq<Pub.JobRef>, job: Pub.JobRef, posts: Posts)
    requires job in posts
  {
    forall i | 0 <= i < |inserted| && inserted[i] in posts && posts[inserted[i]].channel == posts[job].channel ::
      Earlier(posts, inserted[i], job)
  }

  // ----- the queue holds what was inserted

  ghost predicate Mirrors(jobs: Q.Jobs, inserted: seq<Pub.JobRef>, posts: Posts) {
    && (forall i | 0 <= i < |inserted| :: inserted[i] in posts && Holds(jobs, inserted[i], posts[inserted[i]]))
    && (forall id | id in jobs :: exists i :: 0 <= i < |inserted| && inserted[i] in posts && posts[inserted[i]].id == id)
  }

  predicate Holds(jobs: Q.Jobs, x: Pub.JobRef, post: Post) {
    && post.id in jobs && jobs[post.id].channel == post.channel
    && jobs[post.id].sequence == x.event.sequence && jobs[post.id].createdAt == post.createdAt
  }

  lemma WorkersKeepPlaces(w: Q.World, w': Q.World, move: Q.Move)
    requires Q.Next(w, w', move) && !move.Enqueues?
    ensures w'.jobs.Keys == w.jobs.Keys
    ensures forall id | id in w.jobs ::
              && w'.jobs[id].channel == w.jobs[id].channel && w'.jobs[id].sequence == w.jobs[id].sequence
              && w'.jobs[id].createdAt == w.jobs[id].createdAt
  {
    hide Q.IsHead, Q.Due, Q.CanLock, Q.FoundHead;
  }

  lemma InsertionAppends(w: Pub.World, w': Pub.World, move: Pub.Move)
    requires Pub.Next(w, w', move) && w'.inserted != w.inserted
    ensures exists job :: w'.inserted == w.inserted + [job] && job !in w.inserted
  {}

  lemma IdIsNew(jobs: Q.Jobs, inserted: seq<Pub.JobRef>, job: Pub.JobRef, posts: Posts)
    requires Mirrors(jobs, inserted, posts) && DistinctIds(posts) && job in posts && job !in inserted
    ensures posts[job].id !in jobs
  {
    forall i | 0 <= i < |inserted| ensures inserted[i] in posts && posts[inserted[i]].id != posts[job].id {
      assert inserted[i] != job;
    }
  }

  lemma MirrorsMore(w: Q.World, inserted: seq<Pub.JobRef>, job: Pub.JobRef, posts: Posts)
    requires Mirrors(w.jobs, inserted, posts) && DistinctIds(posts) && job in posts && job !in inserted
    ensures posts[job].id !in w.jobs
    ensures Mirrors(Upserted(w, posts[job].id, JobFor(job, posts[job])).jobs, inserted + [job], posts)
  {
    hide DistinctIds;
    IdIsNew(w.jobs, inserted, job, posts);
    var jobs, all := Upserted(w, posts[job].id, JobFor(job, posts[job])).jobs, inserted + [job];
    forall i | 0 <= i < |all| ensures all[i] in posts && Holds(jobs, all[i], posts[all[i]]) {
      if i < |inserted| { assert all[i] == inserted[i] && Holds(w.jobs, inserted[i], posts[inserted[i]]); }
    }
    forall id | id in jobs ensures exists i :: 0 <= i < |all| && all[i] in posts && posts[all[i]].id == id {
      if id in w.jobs {
        var i :| 0 <= i < |inserted| && inserted[i] in posts && posts[inserted[i]].id == id;
        assert all[i] == inserted[i];
      } else {
        assert all[|inserted|] == job;
      }
    }
  }

  lemma {:induction false} QueueMirrors(x: Dispatch, posts: Posts)
    requires Happens(x, posts) && DistinctIds(posts)
    ensures Mirrors(x.queue.world.jobs, x.publishers.world.inserted, posts)
  {
    hide Pub.Next, Q.Next, Mirrors, DistinctIds, Upserted;
    match x {
      case Opened(p, q) => NothingMirrors(posts);
      case Published(before, p, q) =>
        QueueMirrors(before, posts);
        if p.world.inserted != p.before.world.inserted {
          InsertionAppends(p.before.world, p.world, p.move);
          MirrorsMore(before.queue.world, p.before.world.inserted, Newest(p.world), posts);
        }
      case Worked(before, p, q) =>
        QueueMirrors(before, posts);
        WorkersKeepPlaces(q.before.world, q.world, q.move);
        SamePlacesMirror(q.before.world.jobs, q.world.jobs, p.world.inserted, posts);
    }
  }

  lemma NothingMirrors(posts: Posts)
    ensures Mirrors(map[], [], posts)
  {}

  lemma SamePlacesMirror(jobs: Q.Jobs, jobs': Q.Jobs, inserted: seq<Pub.JobRef>, posts: Posts)
    requires Mirrors(jobs, inserted, posts) && jobs'.Keys == jobs.Keys
    requires forall id | id in jobs ::
               && jobs'[id].channel == jobs[id].channel && jobs'[id].sequence == jobs[id].sequence
               && jobs'[id].createdAt == jobs[id].createdAt
    ensures Mirrors(jobs', inserted, posts)
  {
    forall i | 0 <= i < |inserted| ensures inserted[i] in posts && Holds(jobs', inserted[i], posts[inserted[i]]) {
      assert Holds(jobs, inserted[i], posts[inserted[i]]);
    }
  }

  // ----- when a job enters its channel in order

  lemma EntersInOrderExactly(jobs: Q.Jobs, inserted: seq<Pub.JobRef>, job: Pub.JobRef, posts: Posts)
    requires Mirrors(jobs, inserted, posts) && job in posts
    ensures Q.EntersInOrder(jobs, JobFor(job, posts[job])) <==> Follows(inserted, job, posts)
  {
    var entry := JobFor(job, posts[job]);
    if Follows(inserted, job, posts) {
      forall k | k in jobs && jobs[k].channel == entry.channel ensures Q.Before(jobs[k], entry) {
        var i :| 0 <= i < |inserted| && inserted[i] in posts && posts[inserted[i]].id == k;
        assert Holds(jobs, inserted[i], posts[inserted[i]]);
      }
    }
    if Q.EntersInOrder(jobs, entry) {
      forall i | 0 <= i < |inserted| && inserted[i] in posts && posts[inserted[i]].channel == entry.channel
        ensures Earlier(posts, inserted[i], job)
      {
        assert Holds(jobs, inserted[i], posts[inserted[i]]);
        assert Q.Before(jobs[posts[inserted[i]].id], entry);
      }
    }
  }

  lemma SortedOnce(inserted: seq<Pub.JobRef>, job: Pub.JobRef, posts: Posts)
    requires job in posts
    ensures Sorted(inserted + [job], posts) <==> Sorted(inserted, posts) && Follows(inserted, job, posts)
  {
    var all := inserted + [job];
    assert all[|inserted|] == job && forall i | 0 <= i < |inserted| :: all[i] == inserted[i];
    if Sorted(all, posts) {
      forall i | 0 <= i < |inserted| && inserted[i] in posts && posts[inserted[i]].channel == posts[job].channel
        ensures Earlier(posts, inserted[i], job)
      {
        assert Earlier(posts, all[i], all[|inserted|]);
      }
      forall i, j | 0 <= i < j < |inserted| && inserted[i] in posts && inserted[j] in posts
                    && posts[inserted[i]].channel == posts[inserted[j]].channel
        ensures Earlier(posts, inserted[i], inserted[j])
      {
        assert Earlier(posts, all[i], all[j]);
      }
    }
  }

  /** Whatever is planned and wherever it is sent: the queue is one of the orderly ones, to
      which its laws apply, if and only if the jobs of each channel are inserted in its order. */
  lemma {:induction false} QueueIsOrderlyExactly(x: Dispatch, posts: Posts)
    requires Happens(x, posts) && DistinctIds(posts)
    ensures Q.Possible(x.queue) <==> Sorted(x.publishers.world.inserted, posts)
  {
    hide Pub.Next, Mirrors, DistinctIds, Follows, Q.EntersInOrder, Q.Next;
    match x {
      case Opened(p, q) =>
      case Published(before, p, q) =>
        QueueIsOrderlyExactly(before, posts);
        if p.world.inserted != p.before.world.inserted { InsertionDecides(x, posts); }
      case Worked(before, p, q) =>
        QueueIsOrderlyExactly(before, posts);
    }
  }

  lemma InsertionDecides(x: Dispatch, posts: Posts)
    requires Happens(x, posts) && DistinctIds(posts)
    requires x.Published? && x.publishers.world.inserted != x.before.publishers.world.inserted
    ensures Newest(x.publishers.world) in posts
    ensures var earlier, job := x.before.publishers.world.inserted, Newest(x.publishers.world);
            && (Q.Possible(x.queue) <==> Q.Possible(x.before.queue) && Follows(earlier, job, posts))
            && (Sorted(x.publishers.world.inserted, posts) <==> Sorted(earlier, posts) && Follows(earlier, job, posts))
  {
    hide Pub.Next, Mirrors, DistinctIds, Sorted, Follows, Q.EntersInOrder;
    var p, w := x.publishers, x.before.queue.world;
    var earlier, job := p.before.world.inserted, Newest(p.world);
    InsertionAppends(p.before.world, p.world, p.move);
    QueueMirrors(x.before, posts);
    MirrorsMore(w, earlier, job, posts);
    EntersInOrderExactly(w.jobs, earlier, job, posts);
    SortedOnce(earlier, job, posts);
  }

  // ----- where matches have their own channels

  /** The jobs of one event are inserted at strictly increasing moments. */
  predicate Ticks(inserted: seq<Pub.JobRef>, posts: Posts) {
    forall i, j | 0 <= i < j < |inserted| && inserted[i] in posts && inserted[j] in posts
                  && inserted[i].event == inserted[j].event ::
      posts[inserted[i]].createdAt < posts[inserted[j]].createdAt
  }

  /** If every match keeps a channel of its own and planning is stable, only the clock counts. */
  lemma OwnChannelsOnlyTick(x: Dispatch, posts: Posts, plan: map<Pub.EventRef, seq<Pub.JobRef>>)
    requires Happens(x, posts) && DistinctIds(posts) && OwnChannels(posts) && Pub.PlansAre(x.publishers, plan)
    requires forall e, i | e in plan && 0 <= i < |plan[e]| :: plan[e][i].event == e
    ensures Q.Possible(x.queue) <==> Ticks(x.publishers.world.inserted, posts)
  {
    hide Happens, Pub.Possible, Pub.PlansAre, Pub.Complete, Q.Possible, DistinctIds;
    assert Pub.Possible(x.publishers) by { HappensPossibly(x, posts); }
    QueueIsOrderlyExactly(x, posts);
    Pub.JobsEnterInOrder(x.publishers, plan);
    SortedTicks(x.publishers.world.inserted, posts);
  }

  lemma HappensPossibly(x: Dispatch, posts: Posts)
    requires Happens(x, posts)
    ensures Pub.Possible(x.publishers)
  {}

  lemma SortedTicks(inserted: seq<Pub.JobRef>, posts: Posts)
    requires OwnChannels(posts) && Pub.InOrder(inserted)
    ensures Sorted(inserted, posts) <==> Ticks(inserted, posts)
  {
    if Sorted(inserted, posts) {
      forall i, j | 0 <= i < j < |inserted| && inserted[i] in posts && inserted[j] in posts
                    && inserted[i].event == inserted[j].event
        ensures posts[inserted[i]].createdAt < posts[inserted[j]].createdAt
      {
        assert Earlier(posts, inserted[i], inserted[j]);
      }
    }
    if Ticks(inserted, posts) {
      forall i, j | 0 <= i < j < |inserted| && inserted[i] in posts && inserted[j] in posts
                    && posts[inserted[i]].channel == posts[inserted[j]].channel
        ensures Earlier(posts, inserted[i], inserted[j])
      {
        assert inserted[i].event.sequence <= inserted[j].event.sequence;
      }
    }
  }
}
