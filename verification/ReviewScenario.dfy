/** A review that goes wrong, on a server that exists: one command id confirms a result in
    one match and claims the same observation for another (internal/graphql/
    schema.resolvers.go 295-329, internal/ircreview/reconciler.go 40-76). */
module ReviewScenario {
  import opened MatchModel
  import opened Runs
  import opened CommandDocuments
  import opened IrcReview
  import P = CommandProtocol
  import S = Scenarios
  import T = StoredRuns

  lemma OneWaits() returns (server: P.Behaviour)
    ensures P.Possible(server) && T.AtRest(server) && server.world.store.Keys == {"second"}
    ensures server.world.store["second"].actions == []
  {
    hide P.Possible, Consistent, Committed, StateOf;
    S.ConfigurationIsValid();
    StartIsCommitted(S.CONFIGURATION);
    var empty := T.EmptyServer();
    server := T.StoredBeside(empty, Start(S.CONFIGURATION), "second", 1);
    P.EveryBehaviourIsSound(server);
    NothingIsLogged(server.world.store["second"], S.CONFIGURATION);
  }

  lemma OneIsConfirmed(base: P.Behaviour) returns (server: P.Behaviour, commandId: CommandId)
    requires P.Possible(base) && T.AtRest(base) && "first" !in base.world.store
    ensures P.Possible(server) && "first" in server.world.store && commandId != ""
    ensures server.world.store == base.world.store["first" := server.world.store["first"]]
    ensures var d := server.world.store["first"];
            exists i :: 0 <= i < |d.actions| && d.actions[i].commandId == commandId
                     && d.actions[i].command == ConfirmBeatmapResult("P1", Red)
  {
    hide P.Possible, Consistent, Committed, StateOf, InOrder;
    var confirmed := S.Confirmed();
    T.FirstTimeIsSet(confirmed);
    server := T.StoredBeside(base, confirmed, "first", T.FirstTime(confirmed));
    P.EveryBehaviourIsSound(server);
    commandId := LastIsLogged(server.world.store["first"]);
  }

  /** The first match has confirmed red's win of its first piece; the second has not begun. */
  lemma TwoMatches() returns (server: P.Behaviour, done: Claim, other: Claim)
    ensures P.Possible(server) && Alike(done, other) && done.matchId != other.matchId
    ensures done.matchId in server.world.store && other.matchId in server.world.store
    ensures ConfirmationCommitted(server.world.store, done) && !ConfirmationCommitted(server.world.store, other)
  {
    hide P.Possible;
    var commandId: CommandId;
    server := OneWaits();
    server, commandId := OneIsConfirmed(server);
    done := Claim("first", commandId, Verdict("P1", Red));
    other := Claim("second", commandId, Verdict("P1", Red));
  }

  lemma StartIsCommitted(c: Configuration)
    requires ValidConfiguration(c)
    ensures Committed(Start(c))
  {}

  lemma NothingIsLogged(d: MatchDocuments, c: Configuration)
    requires Consistent(d) && RunOf(d.configuration, d.receipts) == Start(c)
    ensures d.actions == []
  {
    hide Folded, Committed, ReceiptFits;
  }

  // The last command of the history is in the action log.
  lemma LastIsLogged(d: MatchDocuments) returns (commandId: CommandId)
    requires Consistent(d) && d.receipts != []
    ensures commandId == T.Last(d.receipts).commandId
    ensures exists i :: 0 <= i < |d.actions| && d.actions[i].commandId == commandId
                     && d.actions[i].command == T.Last(d.receipts).command
  {
    hide Folded, Committed, ReceiptFits, RunOf, AllEvents, Events;
    commandId := T.Last(d.receipts).commandId;
    assert ActionFits(d.actions[|d.actions| - 1], d.receipts[|d.actions| - 1]);
  }

  /** So an observation can be CONFIRMED for a match that committed no such result. */
  lemma SharedCommandIdConfirmsWrongly() returns (x: Review, id: ObservationId)
    ensures Possible(x) && id in x.world.observations && x.world.observations[id].status.ReviewConfirmed?
    ensures !ConfirmedRightly(x.server.world.store, x.world.observations[id])
  {
    hide P.Possible, Possible, OnlyClaims, ConfirmationCommitted;
    var server, done, other := TwoMatches();
    id := "observation";
    var allowed: Allowed := iset{(id, done), (id, other)};
    x := MistakenClaimsConfirmWrongly(server, done, other, id, allowed);
  }
}
