/** The observation store as an object (internal/persistence/irc_jobs.go 55-203), the referee's
    confirmation (internal/graphql/schema.resolvers.go 295-329) and one pass of the reconciler
    (internal/ircreview/reconciler.go 40-76). The object carries the review it has gone
    through, so that what IrcReview proves of reviews holds of it. */
module ReviewDesk {
  import opened MatchModel
  import opened CommandDocuments
  import opened IrcReview
  import P = CommandProtocol

  const LIMIT := 100

  type ActionLog = map<MatchId, seq<Action>>

  /** The action log a reader sees is the store's. */
  ghost predicate LogOf(store: P.Store, log: ActionLog) {
    log.Keys == store.Keys && forall id | id in store :: log[id] == store[id].actions
  }

  /** A pending observation, the same claim again, or the same claim already confirmed. */
  predicate Grants(o: Observation, claim: Claim) {
    Claimable(o, claim) || (o.status.ReviewConfirmed? && o.claim == Some(claim))
  }

  /** What settling a claim makes of the observations. */
  function SettledAs(observations: map<ObservationId, Observation>, id: ObservationId, commandId: CommandId, finalize: bool)
      : map<ObservationId, Observation> {
    if id !in observations || !observations[id].status.ReviewConfirming? || observations[id].claim.None?
       || observations[id].claim.value.commandId != commandId then observations
    else if finalize then observations[id := observations[id].(status := ReviewConfirmed, startedAt := 0)]
    else observations[id := observations[id].(status := ReviewPending, claim := None, startedAt := 0)]
  }

  class ObservationStore {
    var observations: map<ObservationId, Observation>
    ghost var review: Review

    ghost predicate Valid()
      reads this
    {
      Possible(review) && review.world.observations == observations
    }

    /** The desk has taken one step, and the command store none. */
    twostate predicate Steps(move: Move)
      reads this
    {
      && review == Reviewed(old(review), move, old(review).server, review.world)
      && Next(old(review).server.world, old(review).world, review.world, move)
    }

    /** Save inserts an observation once. */
    method Save(id: ObservationId, channel: Channel, says: Option<Verdict>)
      requires Valid()
      modifies this
      ensures Valid() && Steps(Observes(id, channel, says))
      ensures observations == if id in old(observations) then old(observations)
                              else old(observations)[id := Observation(channel, says, ReviewPending, None, 0)]
    {
      hide P.Possible;
      ghost var x := review;
      if id !in observations {
        observations := observations[id := Observation(channel, says, ReviewPending, None, 0)];
      }
      review := Reviewed(x, Observes(id, channel, says), x.server, x.world.(observations := observations));
    }

    method Reject(id: ObservationId) returns (rejected: bool)
      requires Valid()
      modifies this
      ensures Valid() && rejected == (id in old(observations) && old(observations)[id].status.ReviewPending?)
      ensures if rejected then Steps(Rejects(id)) else review == old(review)
      ensures observations == if rejected then old(observations)[id := old(observations)[id].(status := ReviewRejected)]
                              else old(observations)
    {
      hide P.Possible;
      ghost var x := review;
      rejected := id in observations && observations[id].status.ReviewPending?;
      if rejected {
        observations := observations[id := observations[id].(status := ReviewRejected)];
        review := Reviewed(x, Rejects(id), x.server, x.world.(observations := observations));
      }
    }

    /** ClaimConfirmation: a pending observation, or the same claim once more. An unknown
        observation and an incomplete claim are errors that change nothing. */
    method ClaimConfirmation(ghost who: nat, id: ObservationId, claim: Claim, now: Time) returns (claimed: bool)
      requires Valid()
      requires id in observations && Complete(claim) ==>
                 && observations[id].says == Some(claim.verdict)
                 && who in review.world.handlers && review.world.handlers[who] == Authorized(id, claim)
      modifies this
      ensures Valid()
      ensures if id in old(observations) && Complete(claim) then Steps(Claims(who, id, claim, now))
              else review == old(review) && observations == old(observations)
      ensures claimed <==>
                && id in old(observations) && claim.matchId != "" && claim.commandId != "" && claim.verdict.piece != ""
                && claim.verdict.winner in {Red, Blue}
                && (old(observations)[id].status.ReviewPending?
                    || (!old(observations)[id].status.ReviewRejected? && old(observations)[id].claim == Some(claim)))
      ensures claimed ==> review.world.handlers == old(review).world.handlers[who := Claimed(id, claim)]
      ensures observations ==
                if claimed && !old(observations)[id].status.ReviewConfirmed? then
                  old(observations)[id := old(observations)[id].(status := ReviewConfirming, claim := Some(claim), startedAt := now)]
                else old(observations)
    {
      hide P.Possible;
      if id !in observations || !Complete(claim) { return false; }
      ghost var x := review;
      var o := observations[id];
      claimed := Grants(o, claim);
      if Claimable(o, claim) {
        observations := observations[id := ClaimedBy(o, claim, now)];
      }
      ghost var handlers := x.world.handlers[who := if claimed then Claimed(id, claim) else Resting];
      review := Reviewed(x, Claims(who, id, claim, now), x.server, x.world.(observations := observations, handlers := handlers));
    }

    /** The guarded update of FinalizeConfirmation and ReleaseConfirmation: an observation being
        confirmed under the command id becomes confirmed, or pending without a claim. */
    method Settle(id: ObservationId, commandId: CommandId, finalize: bool)
      modifies this`observations
      ensures observations == SettledAs(old(observations), id, commandId, finalize)
      ensures observations == if id !in old(observations) then old(observations)
                              else old(observations)[id :=
                                if finalize then Finalized(old(observations)[id], commandId)
                                else ReleasedFrom(old(observations)[id], commandId)]
    {
      if id !in observations { return; }
      var o := observations[id];
      if Confirming(o, commandId) {
        o := if finalize then o.(status := ReviewConfirmed, startedAt := 0)
             else o.(status := ReviewPending, claim := None, startedAt := 0);
      }
      observations := observations[id := o];
    }

    /** The rest of a claimed request: its command's answer, then the settlement. */
    method FinishRequest(ghost who: nat, id: ObservationId, claim: Claim, success: bool)
      requires Valid() && who in review.world.handlers && review.world.handlers[who] == Claimed(id, claim)
      requires success ==> Confirms(review.server.world, claim)
      modifies this
      ensures Valid() && review.server == old(review).server
      ensures review.world == SetHandler(Update(old(review).world, id, claim.commandId, success), who, Resting)
      ensures observations == SettledAs(old(observations), id, claim.commandId, success)
    {
      hide P.Possible, Confirms;
      ghost var x := review;
      ghost var executed := SetHandler(x.world, who, Executed(id, claim, success));
      ghost var x1 := Reviewed(x, Executes(who, success), x.server, executed);
      assert Possible(x1);
      Settle(id, claim.commandId, success);
      review := Reviewed(x1, Settles(who), x.server,
                         executed.(observations := observations, handlers := executed.handlers[who := Resting]));
    }

    /** ListConfirming, up to the limit. */
    method ListConfirming() returns (items: seq<(ObservationId, Observation)>)
      ensures |items| <= LIMIT
      ensures forall i | 0 <= i < |items| ::
                items[i].0 in observations && observations[items[i].0] == items[i].1 && items[i].1.status.ReviewConfirming?
      ensures forall i, j | 0 <= i < j < |items| :: items[i].0 != items[j].0
      ensures |items| < LIMIT ==> forall id | id in observations && observations[id].status.ReviewConfirming? ::
                exists i :: 0 <= i < |items| && items[i].0 == id
    {
      items := [];
      var todo := observations.Keys;
      while todo != {}
        invariant todo <= observations.Keys && |items| <= LIMIT
        invariant forall i | 0 <= i < |items| ::
          items[i].0 in observations && items[i].0 !in todo && observations[items[i].0] == items[i].1
          && items[i].1.status.ReviewConfirming?
        invariant forall i, j | 0 <= i < j < |items| :: items[i].0 != items[j].0
        invariant |items| < LIMIT ==> forall id | id in observations && id !in todo && observations[id].status.ReviewConfirming? ::
          exists i :: 0 <= i < |items| && items[i].0 == id
      {
        var id :| id in todo;
        todo := todo - {id};
        if observations[id].status.ReviewConfirming? && |items| < LIMIT {
          ghost var before := items;
          items := items + [(id, observations[id])];
          assert items[|before|].0 == id && forall i | 0 <= i < |before| :: items[i] == before[i];
        }
      }
    }
  }

  // ----- the reconciler

  /** The log of the match has the command id with this very confirmation. */
  predicate Logged(log: ActionLog, claim: Claim) {
    && claim.matchId in log
    && exists i :: 0 <= i < |log[claim.matchId]| && log[claim.matchId][i].commandId == claim.commandId
         && log[claim.matchId][i].command == ConfirmBeatmapResult(claim.verdict.piece, claim.verdict.winner)
  }

  /** What a pass decides about a listed observation: confirmed if its claim is in the log, given
      back if the claim is overdue without, left alone otherwise. */
  predicate Decided(log: ActionLog, o: Observation, o': Observation, staleAfter: Duration, now: Time) {
    if !(o.claim.Some? && Complete(o.claim.value)) then o' == o
    else if Logged(log, o.claim.value) then o' == o.(status := ReviewConfirmed, startedAt := 0)
    else if now >= o.startedAt + staleAfter then o' == o.(status := ReviewPending, claim := None, startedAt := 0)
    else o' == o
  }

  /** LoadConfirmationReceipt and the comparison with the claim. */
  method IsCommitted(log: ActionLog, claim: Claim, ghost store: P.Store) returns (committed: bool)
    requires LogOf(store, log)
    ensures committed <==> ConfirmationCommitted(store, claim)
    ensures committed <==> Logged(log, claim)
  {
    if claim.matchId !in log { return false; }
    var actions := log[claim.matchId];
    for i := 0 to |actions|
      invariant forall k | 0 <= k < i ::
        actions[k].commandId != claim.commandId || actions[k].command != ConfirmBeatmapResult(claim.verdict.piece, claim.verdict.winner)
    {
      if actions[i].commandId == claim.commandId
         && actions[i].command == ConfirmBeatmapResult(claim.verdict.piece, claim.verdict.winner) {
        return true;
      }
    }
    return false;
  }

  predicate Stale(o: Observation, staleAfter: Duration, now: Time) { o.startedAt + staleAfter <= now }

  /** What the pass makes of a listed observation. */
  ghost function Reconciled(store: P.Store, o: Observation, staleAfter: Duration, now: Time): Observation {
    if !CompleteClaim(o) then o
    else if ConfirmationCommitted(store, o.claim.value) then Finalized(o, o.claim.value.commandId)
    else if Stale(o, staleAfter, now) then ReleasedFrom(o, o.claim.value.commandId)
    else o
  }

  /** One item: decided from the action log, then finalized, released or left for later. */
  method ReconcileItem(q: ObservationStore, ghost who: nat, item: (ObservationId, Observation),
                       ghost rest: seq<(ObservationId, Observation)>, log: ActionLog, staleAfter: Duration, now: Time)
    returns (ok: bool)
    requires q.Valid() && LogOf(q.review.server.world.store, log)
    requires who in q.review.world.handlers && q.review.world.handlers[who] == Reconciling([item] + rest)
    requires item.0 in q.observations && q.observations[item.0] == item.1
    modifies q
    ensures q.Valid() && q.review.server == old(q.review).server && ok == CompleteClaim(item.1)
    ensures who in q.review.world.handlers && q.review.world.handlers[who] == Reconciling(rest)
    ensures q.observations == old(q.observations)[item.0 := Reconciled(q.review.server.world.store, item.1, staleAfter, now)]
  {
    hide P.Possible, ConfirmationCommitted, LogOf, Complete, Confirms, Linked, SettledAs, Logged;
    ghost var x := q.review;
    ghost var left := SetHandler(x.world, who, Reconciling(rest));
    assert ([item] + rest)[1..] == rest;
    ok := CompleteClaim(item.1);
    if !ok {
      q.review := Reviewed(x, SkipsItem(who), x.server, left);
      return;
    }
    var claim := item.1.claim.value;
    var committed := IsCommitted(log, claim, x.server.world.store);
    if !committed && !Stale(item.1, staleAfter, now) {
      q.review := Reviewed(x, SkipsItem(who), x.server, left);
      return;
    }
    ghost var decided := SetHandler(x.world, who, Deciding([item] + rest, committed));
    ghost var x1 := Reviewed(x, Decides(who, committed), x.server, decided);
    assert Possible(x1);
    q.Settle(item.0, claim.commandId, committed);
    q.review := Reviewed(x1, SettlesItem(who), x.server, left.(observations := q.observations));
  }

  method BeginPass(q: ObservationStore, ghost who: nat) returns (items: seq<(ObservationId, Observation)>)
    requires q.Valid() && who in q.review.world.handlers && q.review.world.handlers[who].Resting?
    modifies q`review
    ensures q.Valid() && q.review.server == old(q.review).server
    ensures who in q.review.world.handlers && q.review.world.handlers[who] == Reconciling(items)
    ensures forall i | 0 <= i < |items| :: items[i].0 in q.observations && q.observations[items[i].0] == items[i].1
    ensures forall i, j | 0 <= i < j < |items| :: items[i].0 != items[j].0
    ensures forall i | 0 <= i < |items| :: items[i].1.status.ReviewConfirming?
    ensures |items| < LIMIT ==> forall id | id in q.observations && q.observations[id].status.ReviewConfirming? ::
              exists i :: 0 <= i < |items| && items[i].0 == id
  {
    hide P.Possible;
    items := q.ListConfirming();
    ghost var x := q.review;
    q.review := Reviewed(x, Lists(who, items), x.server, SetHandler(x.world, who, Reconciling(items)));
  }

  method EndPass(q: ObservationStore, ghost who: nat)
    requires q.Valid() && who in q.review.world.handlers
    modifies q`review
    ensures q.Valid() && q.review.server == old(q.review).server
  {
    hide P.Possible;
    ghost var y := q.review;
    q.review := Reviewed(y, Stops(who), y.server, SetHandler(y.world, who, Resting));
  }

  lemma ReconciledIsDecided(store: P.Store, log: ActionLog, o: Observation, staleAfter: Duration, now: Time)
    requires LogOf(store, log) && o.status.ReviewConfirming?
    ensures Decided(log, o, Reconciled(store, o, staleAfter, now), staleAfter, now)
  {
    if o.claim.Some? && o.claim.value.matchId in log {
      assert log[o.claim.value.matchId] == store[o.claim.value.matchId].actions;
    }
  }

  /** RunOnce: the observations being confirmed are decided from the action log, all of them if
      they are fewer than a hundred, and nothing else is touched. */
  method RunOnce(q: ObservationStore, ghost who: nat, log: ActionLog, staleAfter: Duration, now: Time)
    returns (items: seq<(ObservationId, Observation)>, ok: bool)
    requires q.Valid() && LogOf(q.review.server.world.store, log)
    requires who in q.review.world.handlers && q.review.world.handlers[who].Resting?
    modifies q
    ensures q.Valid() && q.review.server == old(q.review).server
    ensures q.observations.Keys == old(q.observations).Keys
    ensures |items| < 100 ==> forall id | id in old(q.observations) && old(q.observations)[id].status.ReviewConfirming? ::
              (id, old(q.observations)[id]) in items
    ensures forall id | id in old(q.observations) ::
              if (id, old(q.observations)[id]) in items then
                && old(q.observations)[id].status.ReviewConfirming?
                && Decided(log, old(q.observations)[id], q.observations[id], staleAfter, now)
              else q.observations[id] == old(q.observations)[id]
    ensures ok <==> forall i | 0 <= i < |items| :: items[i].1.claim.Some? && Complete(items[i].1.claim.value)
  {
    hide Possible, LogOf, Reconciled, Decided, Complete;
    ghost var was, server := q.observations, q.review.server;
    items := BeginPass(q, who);
    ok := true;
    for i := 0 to |items|
      invariant q.Valid() && q.review.server == server && who in q.review.world.handlers
      invariant q.review.world.handlers[who] == Reconciling(items[i..])
      invariant q.observations.Keys == was.Keys
      invariant forall id | id in was ::
        q.observations[id] == if (id, was[id]) in items[..i] then Reconciled(server.world.store, was[id], staleAfter, now) else was[id]
      invariant ok <==> forall k | 0 <= k < i :: CompleteClaim(items[k].1)
    {
      var item := items[i];
      assert items[i..] == [item] + items[i + 1..] && items[..i + 1] == items[..i] + [item];
      assert (item.0, was[item.0]) !in items[..i];
      var fine := ReconcileItem(q, who, item, items[i + 1..], log, staleAfter, now);
      ok := ok && fine;
    }
    assert items[..|items|] == items;
    forall id | id in was && (id, was[id]) in items {
      ReconciledIsDecided(server.world.store, log, was[id], staleAfter, now);
    }
    EndPass(q, who);
  }
}
