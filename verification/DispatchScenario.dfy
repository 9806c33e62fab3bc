/** Two ways to have two jobs of a match sent at once (internal/persistence/irc_jobs.go 266-363):
    a tie between the invitations of one event, and a room that is linked to another channel
    between two events (internal/service/room_service.go 272-284). */
module DispatchScenario {
  import opened JobDispatch
  import opened JobFlights
  import FlightRuns
  import Pub = Publisher
  import Q = IrcJobs

  const STARTED := Pub.EventRef("m", 1)

  const PLACED := Pub.EventRef("m", 2)

  const A := Pub.JobRef(STARTED, "invite-1")

  const B := Pub.JobRef(STARTED, "invite-2")

  const M := Pub.JobRef(PLACED, "map")

  // ----- two invitations stored in the same millisecond

  const TIED := map[A := Post("a", "#mp", 1), B := Post("b", "#mp", 1)]

  const INVITING: Plan := map[STARTED := [A, B]]

  lemma TheyTie()
    ensures DistinctIds(TIED) && OwnChannels(TIED) && WellPlanned(INVITING, TIED)
    ensures Reachable(INVITING, STARTED) && !Precedes(TIED, A, B)
  {
    TheyArePlanned();
  }

  lemma TheyArePlanned()
    ensures WellPlanned(INVITING, TIED) && Reachable(INVITING, STARTED)
  {
    assert Pub.EventRef("m", 1) == STARTED;
  }

  /** One worker claims an invitation and is slow; when its lock has run out, the other
      invitation is first in the channel too and is claimed as well. */
  lemma TiesPutTwoInFlight() returns (x: Dispatch)
    ensures Happens(x, TIED) && Pub.PlansAre(x.publishers, INVITING) && DistinctIds(TIED) && OwnChannels(TIED)
    ensures Flying(x.queue.world.jobs, "a") && Flying(x.queue.world.jobs, "b")
    ensures x.queue.world.jobs["a"].channel == x.queue.world.jobs["b"].channel
    ensures !Ticks(x.publishers.world.inserted, TIED)
  {
    hide Happens, Pub.PlansAre;
    TheyTie();
    assert B !in INVITING[STARTED][..1];
    x := FlightRuns.BothFly(TIED, INVITING, STARTED, 1, 0, 1);
    QueueMirrors(x, TIED);
    SameChannel(x);
    OwnChannelsOnlyTick(x, TIED, INVITING);
    if Q.Possible(x.queue) { Q.OneJobInFlight(x.queue, "a", "b"); }
  }

  lemma SameChannel(x: Dispatch)
    requires Mirrors(x.queue.world.jobs, x.publishers.world.inserted, TIED)
    ensures forall id | id in x.queue.world.jobs :: x.queue.world.jobs[id].channel == "#mp"
  {
    forall id | id in x.queue.world.jobs ensures x.queue.world.jobs[id].channel == "#mp" {
      var inserted := x.publishers.world.inserted;
      var p :| 0 <= p < |inserted| && inserted[p] in TIED && TIED[inserted[p]].id == id;
      assert Holds(x.queue.world.jobs, inserted[p], TIED[inserted[p]]);
    }
  }

  // ----- a link moved between two events

  const MOVED := map[A := Post("a", "#mp_1", 1), M := Post("b", "#mp_2", 2)]

  const PLACING: Plan := map[STARTED := [A], PLACED := [M]]

  lemma LinkMoves()
    ensures DistinctIds(MOVED) && WellPlanned(PLACING, MOVED) && Reachable(PLACING, PLACED)
    ensures Earlier(MOVED, A, M) && !Precedes(MOVED, A, M)
  {
    assert Pub.EventRef("m", 1) == STARTED && Pub.EventRef("m", 2) == PLACED;
  }

  /** The invitation is being sent on the old channel while the map command of the next event,
      which comes later by sequence and by time, is sent on the new one. */
  lemma MovedLinkPutsTwoInFlight() returns (x: Dispatch)
    ensures Happens(x, MOVED) && Pub.PlansAre(x.publishers, PLACING) && DistinctIds(MOVED) && Earlier(MOVED, A, M)
    ensures Flying(x.queue.world.jobs, "a") && Flying(x.queue.world.jobs, "b")
    ensures Ticks(x.publishers.world.inserted, MOVED)
  {
    hide Happens, Pub.PlansAre;
    LinkMoves();
    x := FlightRuns.BothFly(MOVED, PLACING, PLACED, 1, 0, 0);
    HappensPossibly(x, MOVED);
    PublishersFollowPlan(x.publishers, PLACING);
    DifferentEventsTick(x.publishers.world.inserted);
  }

  lemma DifferentEventsTick(inserted: seq<Pub.JobRef>)
    requires Distinct(inserted)
    ensures Ticks(inserted, MOVED)
  {}
}
