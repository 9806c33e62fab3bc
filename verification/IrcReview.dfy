/** IRC evidence review (internal/persistence/irc_jobs.go 55-203, internal/graphql/
    schema.resolvers.go 295-329, internal/ircreview/reconciler.go 40-76): referees claim an
    observed result, confirm it through the command store and settle the claim; a reconciler
    settles what they leave behind. A referee may only claim an observation for a match whose
    room is linked to the observation's channel (resolver.go 24-34). */
module IrcReview {
  import opened MatchModel
  import opened CommandDocuments
  import P = CommandProtocol

  type ObservationId = string
  type Channel = string

  datatype ReviewStatus = ReviewPending | ReviewConfirming | ReviewConfirmed | ReviewRejected

  datatype Verdict = Verdict(piece: Id, winner: Team)

  datatype Claim = Claim(matchId: MatchId, commandId: CommandId, verdict: Verdict)

  /** `says` is the verdict the observed !result text names, if it is one. */
  datatype Observation = Observation(
    channel: Channel, says: Option<Verdict>, status: ReviewStatus, claim: Option<Claim>, startedAt: Time)

  /** A referee's request after its checks, after claiming and after executing, or a
      reconciler's pass. */
  datatype Handler =
    | Resting
    | Authorized(id: ObservationId, claim: Claim)
    | Claimed(id: ObservationId, claim: Claim)
    | Executed(id: ObservationId, claim: Claim, success: bool)
    | Reconciling(items: seq<(ObservationId, Observation)>)
    | Deciding(items: seq<(ObservationId, Observation)>, finalize: bool)

  /** `links` is the multiplayer channel each match's room is linked to at the moment. */
  datatype World = World(
    observations: map<ObservationId, Observation>, handlers: map<nat, Handler>, links: map<MatchId, Channel>)

  // ----- the guarded updates (irc_jobs.go 115-187)

  /** Neither ClaimConfirmation nor the reconciler touches an incomplete claim. */
  predicate Complete(claim: Claim) {
    claim.matchId != "" && claim.commandId != "" && claim.verdict.piece != "" && claim.verdict.winner.Valid()
  }

  predicate Claimable(o: Observation, claim: Claim) {
    o.status.ReviewPending? || (o.status.ReviewConfirming? && o.claim == Some(claim))
  }

  function ClaimedBy(o: Observation, claim: Claim, now: Time): Observation {
    o.(status := ReviewConfirming, claim := Some(claim), startedAt := now)
  }

  predicate Confirming(o: Observation, commandId: CommandId) {
    o.status.ReviewConfirming? && o.claim.Some? && o.claim.value.commandId == commandId
  }

  function Finalized(o: Observation, commandId: CommandId): Observation {
    if Confirming(o, commandId) then o.(status := ReviewConfirmed, startedAt := 0) else o
  }

  function ReleasedFrom(o: Observation, commandId: CommandId): Observation {
    if Confirming(o, commandId) then o.(status := ReviewPending, claim := None, startedAt := 0) else o
  }

  /** LoadConfirmationReceipt finds this very confirmation (command_store.go 427-454). */
  ghost predicate ConfirmationCommitted(store: P.Store, claim: Claim) {
    && claim.matchId in store
    && exists i :: 0 <= i < |store[claim.matchId].actions|
         && store[claim.matchId].actions[i].commandId == claim.commandId
         && store[claim.matchId].actions[i].command == ConfirmBeatmapResult(claim.verdict.piece, claim.verdict.winner)
  }

  /** Some client's Apply answered this confirmation with success. */
  ghost predicate Confirms(server: P.World, claim: Claim) {
    exists who :: who in server.clients && P.Succeeded(server.clients[who]) && EnvelopeFor(server.clients[who].env, claim)
  }

  predicate EnvelopeFor(env: Envelope, claim: Claim) {
    && env.matchId == claim.matchId && env.commandId == claim.commandId
    && env.command == ConfirmBeatmapResult(claim.verdict.piece, claim.verdict.winner)
  }

  // ----- moves

  datatype Move =
    | SetsLink(matchId: MatchId, channel: Channel)
    | Observes(id: ObservationId, channel: Channel, says: Option<Verdict>)
    | Authorizes(who: nat, id: ObservationId, claim: Claim)
    | Claims(who: nat, id: ObservationId, claim: Claim, now: Time)
    | Executes(who: nat, success: bool)
    | Settles(who: nat)
    | Lists(who: nat, items: seq<(ObservationId, Observation)>)
    | Decides(who: nat, finalize: bool)
    | SkipsItem(who: nat)
    | SettlesItem(who: nat)
    | Rejects(id: ObservationId)
    | Stops(who: nat)

  function Put(w: World, id: ObservationId, o: Observation): World { w.(observations := w.observations[id := o]) }

  function SetHandler(w: World, who: nat, h: Handler): World { w.(handlers := w.handlers[who := h]) }

  function Update(w: World, id: ObservationId, commandId: CommandId, finalize: bool): World {
    if id !in w.observations then w
    else
      var o := w.observations[id];
      Put(w, id, if finalize then Finalized(o, commandId) else ReleasedFrom(o, commandId))
  }

  predicate HasItem(w: World, who: nat) {
    who in w.handlers
    && ((w.handlers[who].Reconciling? && w.handlers[who].items != []) || (w.handlers[who].Deciding? && w.handlers[who].items != []))
  }

  predicate CompleteClaim(o: Observation) { o.claim.Some? && Complete(o.claim.value) }

  predicate Linked(w: World, matchId: MatchId, channel: Channel) { matchId in w.links && w.links[matchId] == channel }

  ghost predicate Next(server: P.World, w: World, w': World, move: Move) {
    match move
    case SetsLink(matchId, channel) => w' == w.(links := w.links[matchId := channel])
    case Observes(id, channel, says) =>
      w' == if id in w.observations then w else Put(w, id, Observation(channel, says, ReviewPending, None, 0))
    case Authorizes(who, id, claim) =>
      && who in w.handlers && w.handlers[who].Resting?
      && id in w.observations && w.observations[id].says == Some(claim.verdict)
      && Linked(w, claim.matchId, w.observations[id].channel)
      && w' == SetHandler(w, who, Authorized(id, claim))
    case Claims(who, id, claim, now) =>
      && who in w.handlers && w.handlers[who] == Authorized(id, claim) && Complete(claim)
      && id in w.observations && w.observations[id].says == Some(claim.verdict)
      && var o := w.observations[id];
         if Claimable(o, claim) then w' == SetHandler(Put(w, id, ClaimedBy(o, claim, now)), who, Claimed(id, claim))
         else if o.status.ReviewConfirmed? && o.claim == Some(claim) then w' == SetHandler(w, who, Claimed(id, claim))
         else w' == SetHandler(w, who, Resting)
    case Executes(who, success) =>
      && who in w.handlers && w.handlers[who].Claimed?
      && (success ==> Confirms(server, w.handlers[who].claim))
      && w' == SetHandler(w, who, Executed(w.handlers[who].id, w.handlers[who].claim, success))
    case Settles(who) =>
      && who in w.handlers && w.handlers[who].Executed?
      && var h := w.handlers[who];
         w' == SetHandler(Update(w, h.id, h.claim.commandId, h.success), who, Resting)
    case Lists(who, items) =>
      && who in w.handlers && w.handlers[who].Resting?
      && (forall i | 0 <= i < |items| ::
            items[i].0 in w.observations && w.observations[items[i].0] == items[i].1 && items[i].1.status.ReviewConfirming?)
      && w' == SetHandler(w, who, Reconciling(items))
    case Decides(who, finalize) =>
      && who in w.handlers && w.handlers[who].Reconciling? && w.handlers[who].items != []
      && var items := w.handlers[who].items;
         && CompleteClaim(items[0].1)
         && (finalize <==> ConfirmationCommitted(server.store, items[0].1.claim.value))
         && w' == SetHandler(w, who, Deciding(items, finalize))
    case SkipsItem(who) => HasItem(w, who) && w' == SetHandler(w, who, Reconciling(w.handlers[who].items[1..]))
    case SettlesItem(who) =>
      && who in w.handlers && w.handlers[who].Deciding? && w.handlers[who].items != [] && w.handlers[who].items[0].1.claim.Some?
      && var h := w.handlers[who];
         w' == SetHandler(Update(w, h.items[0].0, h.items[0].1.claim.value.commandId, h.finalize), who, Reconciling(h.items[1..]))
    case Rejects(id) =>
      && id in w.observations && w.observations[id].status.ReviewPending?
      && w' == Put(w, id, w.observations[id].(status := ReviewRejected))
    case Stops(who) => who in w.handlers && w' == SetHandler(w, who, Resting)
  }

  /** The review beside a command store that goes on committing. */
  datatype Review =
    | Opened(server: P.Behaviour, world: World)
    | ServerMoved(before: Review, server: P.Behaviour, world: World)
    | Reviewed(before: Review, move: Move, server: P.Behaviour, world: World)

  ghost predicate Possible(x: Review) {
    && P.Possible(x.server)
    && match x
       case Opened(_, w) => w.observations == map[] && forall who | who in w.handlers :: w.handlers[who].Resting?
       case ServerMoved(before, server, w) =>
         Possible(before) && server.Extend? && server.before == before.server && w == before.world
       case Reviewed(before, move, server, w) =>
         Possible(before) && server == before.server && Next(server.world, before.world, w, move)
  }

  // ----- what is claimed, and what may be confirmed

  type Allowed = iset<(ObservationId, Claim)>

  /** Every claim made is an allowed one. */
  ghost predicate OnlyClaims(x: Review, allowed: Allowed) {
    match x
    case Opened(_, _) => true
    case ServerMoved(before, _, _) => OnlyClaims(before, allowed)
    case Reviewed(before, move, _, _) =>
      OnlyClaims(before, allowed) && (move.Claims? ==> (move.id, move.claim) in allowed)
  }

  /** CONFIRMED observations say what a committed confirmation of their match says. */
  ghost predicate Truthful(x: Review) {
    forall id | id in x.world.observations && x.world.observations[id].status.ReviewConfirmed? ::
      ConfirmedRightly(x.server.world.store, x.world.observations[id])
  }

  ghost predicate ConfirmedRightly(store: P.Store, o: Observation) {
    o.claim.Some? && o.says == Some(o.claim.value.verdict) && ConfirmationCommitted(store, o.claim.value)
  }

  /** The same command id and verdict, for two matches or for one. */
  predicate Alike(x: Claim, y: Claim) {
    Complete(x) && Complete(y) && x.commandId == y.commandId && x.verdict == y.verdict
  }

  /** No observation has two claims alike of which one is committed and the other is not. */
  ghost predicate Unmistakable(store: P.Store, allowed: Allowed) {
    forall id, x, y | (id, x) in allowed && (id, y) in allowed && Alike(x, y) ::
      ConfirmationCommitted(store, x) ==> ConfirmationCommitted(store, y)
  }

  // ----- the invariant, with the store the review ends with

  /** A claim is an allowed one and names what the observation says. */
  ghost predicate ClaimFits(w: World, allowed: Allowed, id: ObservationId, claim: Claim) {
    id in w.observations && w.observations[id].says == Some(claim.verdict) && Complete(claim) && (id, claim) in allowed
  }

  ghost predicate ObservationFits(store: P.Store, w: World, allowed: Allowed, id: ObservationId)
    requires id in w.observations
  {
    var o := w.observations[id];
    && (o.claim.Some? ==> ClaimFits(w, allowed, id, o.claim.value))
    && (o.status.ReviewConfirming? ==> o.claim.Some?)
    && (o.status.ReviewConfirmed? ==> o.claim.Some? && ConfirmationCommitted(store, o.claim.value))
  }

  ghost predicate ItemsFit(w: World, allowed: Allowed, items: seq<(ObservationId, Observation)>) {
    forall i | 0 <= i < |items| && items[i].1.claim.Some? :: ClaimFits(w, allowed, items[i].0, items[i].1.claim.value)
  }

  ghost predicate HandlerFits(store: P.Store, w: World, allowed: Allowed, h: Handler) {
    match h
    case Resting => true
    case Authorized(_, _) => true
    case Claimed(id, claim) => ClaimFits(w, allowed, id, claim)
    case Executed(id, claim, success) =>
      ClaimFits(w, allowed, id, claim) && (success ==> ConfirmationCommitted(store, claim))
    case Reconciling(items) => ItemsFit(w, allowed, items)
    case Deciding(items, finalize) =>
      && ItemsFit(w, allowed, items)
      && (finalize && items != [] && items[0].1.claim.Some? ==> ConfirmationCommitted(store, items[0].1.claim.value))
  }

  ghost predicate Sound(store: P.Store, w: World, allowed: Allowed) {
    && (forall id | id in w.observations :: ObservationFits(store, w, allowed, id))
    && (forall who | who in w.handlers :: HandlerFits(store, w, allowed, w.handlers[who]))
  }

  /** What an observation says, and where, never changes. */
  predicate SaysStay(w: World, w': World) {
    forall id | id in w.observations ::
      && id in w'.observations && w'.observations[id].says == w.observations[id].says
      && w'.observations[id].channel == w.observations[id].channel
  }

  lemma ClaimFitsStill(w: World, w': World, allowed: Allowed, id: ObservationId, claim: Claim)
    requires SaysStay(w, w') && ClaimFits(w, allowed, id, claim)
    ensures ClaimFits(w', allowed, id, claim)
  {}

  // Finalizing under a command id meets a claim alike, if it meets one at all.
  lemma UpdateFits(store: P.Store, w: World, allowed: Allowed, id: ObservationId, claim: Claim, finalize: bool)
    requires Unmistakable(store, allowed) && forall k | k in w.observations :: ObservationFits(store, w, allowed, k)
    requires ClaimFits(w, allowed, id, claim) && (finalize ==> ConfirmationCommitted(store, claim))
    ensures var w' := Update(w, id, claim.commandId, finalize);
            && SaysStay(w, w') && w'.handlers == w.handlers
            && forall k | k in w'.observations :: ObservationFits(store, w', allowed, k)
  {
    hide ConfirmationCommitted;
    var o, w' := w.observations[id], Update(w, id, claim.commandId, finalize);
    assert ObservationFits(store, w, allowed, id);
    if finalize && Confirming(o, claim.commandId) {
      assert Alike(claim, o.claim.value) && (id, claim) in allowed && (id, o.claim.value) in allowed;
    }
    forall k | k in w'.observations ensures ObservationFits(store, w', allowed, k) {
      assert ObservationFits(store, w, allowed, k);
    }
  }

  lemma SuccessIsCommitted(server: P.Behaviour, claim: Claim)
    requires P.Possible(server) && Confirms(server.world, claim)
    ensures ConfirmationCommitted(server.world.store, claim)
  {
    hide P.Possible;
    var who :| who in server.world.clients && P.Succeeded(server.world.clients[who])
               && EnvelopeFor(server.world.clients[who].env, claim);
    P.AnswersAreLogged(server, who);
  }

  lemma SaysNeverChange(server: P.World, w: World, w': World, move: Move)
    requires Next(server, w, w', move)
    ensures SaysStay(w, w')
  {
    hide ConfirmationCommitted, Confirms, Linked, Complete;
  }

  lemma UpdateKeepsRest(w: World, id: ObservationId, commandId: CommandId, finalize: bool)
    ensures Update(w, id, commandId, finalize).handlers == w.handlers
    ensures Update(w, id, commandId, finalize).links == w.links
  {}

  // Moves that change no observation keep every one of them fitting.
  lemma SameObservationsFit(store: P.Store, w: World, w': World, allowed: Allowed)
    requires forall id | id in w.observations :: ObservationFits(store, w, allowed, id)
    requires w'.observations == w.observations
    ensures forall id | id in w'.observations :: ObservationFits(store, w', allowed, id)
  {
    hide ConfirmationCommitted, Complete;
    forall id | id in w'.observations ensures ObservationFits(store, w', allowed, id) {
      assert ObservationFits(store, w, allowed, id);
    }
  }

  lemma SettlingStaysFit(server: P.World, store: P.Store, w: World, w': World, move: Move, allowed: Allowed)
    requires Unmistakable(store, allowed) && Sound(store, w, allowed) && Next(server, w, w', move)
    requires move.Settles? || move.SettlesItem?
    ensures forall id | id in w'.observations :: ObservationFits(store, w', allowed, id)
  {
    hide ConfirmationCommitted, Confirms, Update, ItemsFit, Unmistakable, ObservationFits, Complete;
    var h := w.handlers[move.who];
    assert HandlerFits(store, w, allowed, h);
    if move.Settles? {
      UpdateFits(store, w, allowed, h.id, h.claim, h.success);
      SameObservationsFit(store, Update(w, h.id, h.claim.commandId, h.success), w', allowed);
    } else {
      FirstItemFits(w, allowed, h.items);
      var claim := h.items[0].1.claim.value;
      UpdateFits(store, w, allowed, h.items[0].0, claim, h.finalize);
      SameObservationsFit(store, Update(w, h.items[0].0, claim.commandId, h.finalize), w', allowed);
    }
  }

  lemma ObservationsStayFit(server: P.World, store: P.Store, w: World, w': World, move: Move, allowed: Allowed)
    requires Unmistakable(store, allowed) && Sound(store, w, allowed) && Next(server, w, w', move) && SaysStay(w, w')
    requires move.Claims? ==> (move.id, move.claim) in allowed
    ensures forall id | id in w'.observations :: ObservationFits(store, w', allowed, id)
  {
    hide ConfirmationCommitted, Confirms, Update, HandlerFits, Unmistakable, Linked, ObservationFits, Complete, SaysStay;
    if move.Settles? || move.SettlesItem? {
      SettlingStaysFit(server, store, w, w', move, allowed);
    } else if move.Observes? || move.Claims? || move.Rejects? {
      ChangedFits(store, w, w', allowed, move.id);
    } else {
      SameObservationsFit(store, w, w', allowed);
    }
  }

  // One observation is new, or keeps its status and claim, or takes an allowed claim.
  lemma ChangedFits(store: P.Store, w: World, w': World, allowed: Allowed, id: ObservationId)
    requires forall k | k in w.observations :: ObservationFits(store, w, allowed, k)
    requires SaysStay(w, w') && id in w'.observations && w'.observations == w.observations[id := w'.observations[id]]
    requires var o' := w'.observations[id];
             || (o'.claim.None? && o'.status.ReviewPending?)
             || (id in w.observations && o'.claim == w.observations[id].claim
                 && (o'.status == w.observations[id].status || o'.status.ReviewRejected?))
             || (o'.claim.Some? && ClaimFits(w', allowed, id, o'.claim.value) && !o'.status.ReviewConfirmed?)
    ensures forall k | k in w'.observations :: ObservationFits(store, w', allowed, k)
  {
    hide ConfirmationCommitted, Complete;
    forall k | k in w'.observations ensures ObservationFits(store, w', allowed, k) {
      if k in w.observations { assert ObservationFits(store, w, allowed, k); }
    }
  }

  lemma FirstItemFits(w: World, allowed: Allowed, items: seq<(ObservationId, Observation)>)
    requires ItemsFit(w, allowed, items) && items != [] && items[0].1.claim.Some?
    ensures ClaimFits(w, allowed, items[0].0, items[0].1.claim.value)
  {}

  lemma ItemsFitStill(w: World, w': World, allowed: Allowed, items: seq<(ObservationId, Observation)>)
    requires ItemsFit(w, allowed, items) && SaysStay(w, w')
    ensures ItemsFit(w', allowed, items) && (items != [] ==> ItemsFit(w', allowed, items[1..]))
  {}

  lemma ListedFit(store: P.Store, w: World, w': World, allowed: Allowed, items: seq<(ObservationId, Observation)>)
    requires forall id | id in w.observations :: ObservationFits(store, w, allowed, id)
    requires forall i | 0 <= i < |items| :: items[i].0 in w.observations && w.observations[items[i].0] == items[i].1
    requires SaysStay(w, w')
    ensures ItemsFit(w', allowed, items)
  {
    hide ConfirmationCommitted;
    forall i | 0 <= i < |items| && items[i].1.claim.Some?
      ensures ClaimFits(w', allowed, items[i].0, items[i].1.claim.value)
    {
      assert ObservationFits(store, w, allowed, items[i].0);
    }
  }

  lemma HandlersStayFit(server: P.Behaviour, store: P.Store, w: World, w': World, move: Move, allowed: Allowed)
    requires P.Possible(server) && P.StoreGrew(server.world.store, store)
    requires Sound(store, w, allowed) && Next(server.world, w, w', move) && SaysStay(w, w')
    requires move.Claims? ==> (move.id, move.claim) in allowed
    ensures forall who | who in w'.handlers :: HandlerFits(store, w', allowed, w'.handlers[who])
  {
    hide P.Possible, P.StoreGrew, ConfirmationCommitted, Confirms, Update, ItemsFit, SaysStay, ObservationFits, Linked,
      Complete, ClaimFits, Claimable;
    if move.Settles? {
      var h := w.handlers[move.who];
      UpdateKeepsRest(w, h.id, h.claim.commandId, h.success);
    } else if move.SettlesItem? {
      var h := w.handlers[move.who];
      UpdateKeepsRest(w, h.items[0].0, h.items[0].1.claim.value.commandId, h.finalize);
    }
    forall claim | ConfirmationCommitted(server.world.store, claim) ensures ConfirmationCommitted(store, claim) {
      CommittedStays(server.world.store, store, claim);
    }
    forall who | who in w'.handlers ensures HandlerFits(store, w', allowed, w'.handlers[who]) {
      assert who in w.handlers && HandlerFits(store, w, allowed, w.handlers[who]);
      var h, h' := w.handlers[who], w'.handlers[who];
      if h.Claimed? || h.Executed? { ClaimFitsStill(w, w', allowed, h.id, h.claim); }
      if h.Reconciling? || h.Deciding? { ItemsFitStill(w, w', allowed, h.items); }
      if h.Claimed? && h'.Executed? && h'.success { SuccessIsCommitted(server, h.claim); }
      if h.Resting? && h'.Reconciling? { ListedFit(store, w, w', allowed, h'.items); }
      if h.Authorized? && h'.Claimed? { ClaimFitsStill(w, w', allowed, h'.id, h'.claim); }
    }
  }

  // Actions are never dropped, so a committed confirmation stays committed.
  lemma CommittedStays(store: P.Store, store': P.Store, claim: Claim)
    requires P.StoreGrew(store, store') && ConfirmationCommitted(store, claim)
    ensures ConfirmationCommitted(store', claim)
  {}

  lemma {:induction false} EarlierStill(b: P.Behaviour, last: P.Behaviour)
    requires P.Later(b, last) && b.Extend?
    ensures P.Later(b.before, last)
  {
    if last != b { EarlierStill(b, last.before); }
  }

  lemma {:induction false} ReviewStaysSound(x: Review, last: P.Behaviour, allowed: Allowed)
    requires Possible(x) && OnlyClaims(x, allowed) && P.Possible(last) && P.Later(x.server, last)
    requires Unmistakable(last.world.store, allowed)
    ensures Sound(last.world.store, x.world, allowed)
  {
    hide P.Possible, P.Next, P.StoreGrew, P.Later, Next, Unmistakable, ObservationFits, HandlerFits, SaysStay;
    match x {
      case Opened(server, w) => RestingFits(last.world.store, w, allowed);
      case ServerMoved(before, server, w) =>
        EarlierStill(server, last);
        ReviewStaysSound(before, last, allowed);
      case Reviewed(before, move, server, w) =>
        ReviewStaysSound(before, last, allowed);
        P.StoreOnlyGrows(server, last);
        SaysNeverChange(server.world, before.world, w, move);
        ObservationsStayFit(server.world, last.world.store, before.world, w, move, allowed);
        HandlersStayFit(server, last.world.store, before.world, w, move, allowed);
    }
  }

  lemma RestingFits(store: P.Store, w: World, allowed: Allowed)
    requires w.observations == map[] && forall who | who in w.handlers :: w.handlers[who].Resting?
    ensures Sound(store, w, allowed)
  {}

  lemma UnmistakableIsTruthful(x: Review, allowed: Allowed)
    requires Possible(x) && OnlyClaims(x, allowed) && Unmistakable(x.server.world.store, allowed)
    ensures Truthful(x)
  {
    hide P.Possible, Next, Unmistakable, ConfirmationCommitted, HandlerFits;
    ReviewStaysSound(x, x.server, allowed);
    forall id | id in x.world.observations && x.world.observations[id].status.ReviewConfirmed?
      ensures ConfirmedRightly(x.server.world.store, x.world.observations[id])
    {
      assert ObservationFits(x.server.world.store, x.world, allowed, id);
    }
  }

  // ----- the other direction: a late finalization settles another claim

  lemma Takes(x: Review, move: Move, w: World, allowed: Allowed) returns (x': Review)
    requires Possible(x) && OnlyClaims(x, allowed) && Next(x.server.world, x.world, w, move)
    requires move.Claims? ==> (move.id, move.claim) in allowed
    ensures x' == Reviewed(x, move, x.server, w) && Possible(x') && OnlyClaims(x', allowed)
  {
    hide P.Possible, Next;
    x' := Reviewed(x, move, x.server, w);
  }

  function Unclaimed(channel: Channel, v: Verdict): Observation { Observation(channel, Some(v), ReviewPending, None, 0) }

  /** A reconciler and a referee, with two matches linked to the same channel. */
  function Shared(x: Claim, y: Claim, id: ObservationId, o: Observation, h: Handler, r: Handler): World {
    World(map[id := o], map[0 := h, 1 := r], map[x.matchId := "#mp", y.matchId := "#mp"])
  }

  // Both rooms are linked to the channel in which the verdict is observed.
  lemma Observed(server: P.Behaviour, x: Claim, y: Claim, id: ObservationId, allowed: Allowed) returns (z: Review)
    requires P.Possible(server)
    ensures Possible(z) && OnlyClaims(z, allowed) && z.server == server
    ensures z.world == Shared(x, y, id, Unclaimed("#mp", x.verdict), Resting, Resting)
  {
    hide P.Possible;
    var resting := map[0 := Resting, 1 := Resting];
    z := Opened(server, World(map[], resting, map[]));
    z := Takes(z, SetsLink(x.matchId, "#mp"), World(map[], resting, map[x.matchId := "#mp"]), allowed);
    z := Takes(z, SetsLink(y.matchId, "#mp"), World(map[], resting, map[x.matchId := "#mp", y.matchId := "#mp"]), allowed);
    z := Takes(z, Observes(id, "#mp", Some(x.verdict)), Shared(x, y, id, Unclaimed("#mp", x.verdict), Resting, Resting),
               allowed);
  }

  // The referee's request claims the observation for one of the two matches.
  lemma Requested(z: Review, x: Claim, y: Claim, id: ObservationId, claim: Claim, h: Handler, now: Time, allowed: Allowed)
    returns (z': Review)
    requires Possible(z) && OnlyClaims(z, allowed) && (id, claim) in allowed && (claim == x || claim == y) && Alike(x, y)
    requires z.world == Shared(x, y, id, Unclaimed("#mp", x.verdict), h, Resting)
    ensures Possible(z') && OnlyClaims(z', allowed) && z'.server == z.server
    ensures z'.world == Shared(x, y, id, ClaimedBy(Unclaimed("#mp", x.verdict), claim, now), h, Claimed(id, claim))
  {
    hide Possible;
    var o := Unclaimed("#mp", x.verdict);
    z' := Takes(z, Authorizes(1, id, claim), Shared(x, y, id, o, h, Authorized(id, claim)), allowed);
    z' := Takes(z', Claims(1, id, claim, now), Shared(x, y, id, ClaimedBy(o, claim, now), h, Claimed(id, claim)), allowed);
  }

  // The reconciler decides to finalize the first claim.
  lemma Decided(z: Review, x: Claim, y: Claim, id: ObservationId, o: Observation, allowed: Allowed) returns (z': Review)
    requires Possible(z) && OnlyClaims(z, allowed) && Complete(x) && ConfirmationCommitted(z.server.world.store, x)
    requires o.status.ReviewConfirming? && o.claim == Some(x)
    requires z.world == Shared(x, y, id, o, Resting, Claimed(id, x))
    ensures Possible(z') && OnlyClaims(z', allowed) && z'.server == z.server
    ensures z'.world == Shared(x, y, id, o, Deciding([(id, o)], true), Claimed(id, x))
  {
    hide Possible, OnlyClaims, ConfirmationCommitted, Complete, Linked;
    var items := [(id, o)];
    z' := Takes(z, Lists(0, items), SetHandler(z.world, 0, Reconciling(items)), allowed);
    z' := Takes(z', Decides(0, true), SetHandler(z'.world, 0, Deciding(items, true)), allowed);
  }

  // The request fails and releases its claim.
  lemma Released(z: Review, x: Claim, y: Claim, id: ObservationId, h: Handler, allowed: Allowed) returns (z': Review)
    requires Possible(z) && OnlyClaims(z, allowed)
    requires z.world == Shared(x, y, id, ClaimedBy(Unclaimed("#mp", x.verdict), x, 1), h, Claimed(id, x))
    ensures Possible(z') && OnlyClaims(z', allowed) && z'.server == z.server
    ensures z'.world == Shared(x, y, id, Unclaimed("#mp", x.verdict), h, Resting)
  {
    hide Possible, OnlyClaims, Confirms, Complete, Linked;
    z' := Takes(z, Executes(1, false), SetHandler(z.world, 1, Executed(id, x, false)), allowed);
    z' := Takes(z', Settles(1), SetHandler(Update(z'.world, id, x.commandId, false), 1, Resting), allowed);
  }

  // The reconciler finalizes what it finds under the command id.
  lemma Overtaken(z: Review, x: Claim, y: Claim, id: ObservationId, allowed: Allowed) returns (z': Review)
    requires Possible(z) && OnlyClaims(z, allowed) && Alike(x, y)
    requires z.world == Shared(x, y, id, ClaimedBy(Unclaimed("#mp", x.verdict), y, 2),
                               Deciding([(id, ClaimedBy(Unclaimed("#mp", x.verdict), x, 1))], true), Claimed(id, y))
    ensures Possible(z') && OnlyClaims(z', allowed) && z'.server == z.server && id in z'.world.observations
    ensures z'.world.observations[id].status.ReviewConfirmed? && z'.world.observations[id].claim == Some(y)
  {
    hide Possible, OnlyClaims, Complete, Linked;
    var h := z.world.handlers[0];
    z' := Takes(z, SettlesItem(0),
                SetHandler(Update(z.world, id, x.commandId, true), 0, Reconciling(h.items[1..])), allowed);
  }

  /** The reconciler finds a claim's confirmation committed; before it finalizes the claim,
      a failed retry releases it and a request claims the observation for the other match. */
  lemma MistakenClaimsConfirmWrongly(server: P.Behaviour, x: Claim, y: Claim, id: ObservationId, allowed: Allowed)
    returns (z: Review)
    requires P.Possible(server) && Alike(x, y) && (id, x) in allowed && (id, y) in allowed
    requires ConfirmationCommitted(server.world.store, x) && !ConfirmationCommitted(server.world.store, y)
    ensures Possible(z) && OnlyClaims(z, allowed) && z.server == server && id in z.world.observations
    ensures z.world.observations[id].status.ReviewConfirmed? && z.world.observations[id].claim == Some(y)
    ensures !Truthful(z)
  {
    hide P.Possible, Possible, OnlyClaims, ConfirmationCommitted, Complete;
    var first := ClaimedBy(Unclaimed("#mp", x.verdict), x, 1);
    var deciding := Deciding([(id, first)], true);
    z := Observed(server, x, y, id, allowed);
    z := Requested(z, x, y, id, x, Resting, 1, allowed);
    z := Decided(z, x, y, id, first, allowed);
    z := Released(z, x, y, id, deciding, allowed);
    z := Requested(z, x, y, id, y, deciding, 2, allowed);
    z := Overtaken(z, x, y, id, allowed);
    assert !ConfirmedRightly(server.world.store, z.world.observations[id]);
  }

  /** For any server and any claims that may be made there: whatever handlers, crashes and
      the reconciler do, CONFIRMED means committed, if and only if no observation has two
      claims with the same command id and verdict of which only one is committed. */
  lemma EvidenceIsSafeExactly(server: P.Behaviour, allowed: Allowed)
    requires P.Possible(server)
    ensures Unmistakable(server.world.store, allowed)
       <==> forall x :: Possible(x) && x.server == server && OnlyClaims(x, allowed) ==> Truthful(x)
  {
    hide P.Possible, Possible, OnlyClaims, ConfirmationCommitted, Truthful;
    if Unmistakable(server.world.store, allowed) {
      forall x | Possible(x) && x.server == server && OnlyClaims(x, allowed) ensures Truthful(x) {
        UnmistakableIsTruthful(x, allowed);
      }
    } else {
      var id, x, y :| (id, x) in allowed && (id, y) in allowed && Alike(x, y)
                      && ConfirmationCommitted(server.world.store, x) && !ConfirmationCommitted(server.world.store, y);
      var z := MistakenClaimsConfirmWrongly(server, x, y, id, allowed);
    }
  }

  // ----- two ways to rule mistakes out

  /** Each command id is used for one match. */
  ghost predicate OneMatchPerCommand(x: Review, owner: map<CommandId, MatchId>) { OnlyClaims(x, OwnedBy(owner)) }

  ghost function OwnedBy(owner: map<CommandId, MatchId>): Allowed {
    iset p: (ObservationId, Claim) | p.1.commandId in owner && owner[p.1.commandId] == p.1.matchId
  }

  /** If each command id is used for one match, then whatever handlers, crashes and the
      reconciler do, an observation is CONFIRMED only if a confirmation of the same match,
      piece and winner, which is what the observation says, has been committed. */
  lemma ConfirmedMeansCommitted(x: Review, owner: map<CommandId, MatchId>, id: ObservationId)
    requires Possible(x) && OneMatchPerCommand(x, owner)
    requires id in x.world.observations && x.world.observations[id].status.ReviewConfirmed?
    ensures var o := x.world.observations[id];
            o.claim.Some? && o.says == Some(o.claim.value.verdict) && ConfirmationCommitted(x.server.world.store, o.claim.value)
  {
    hide Possible, ConfirmationCommitted, OnlyClaims;
    UnmistakableIsTruthful(x, OwnedBy(owner));
  }

  /** Every channel a room is ever linked to belongs to one match for good. */
  predicate OwnChannels(x: Review, owner: map<Channel, MatchId>) {
    match x
    case Opened(_, w) => forall id | id in w.links :: w.links[id] in owner && owner[w.links[id]] == id
    case ServerMoved(before, _, _) => OwnChannels(before, owner)
    case Reviewed(before, move, _, _) =>
      && OwnChannels(before, owner)
      && (move.SetsLink? ==> move.channel in owner && owner[move.channel] == move.matchId)
  }

  ghost function HeardIn(w: World, owner: map<Channel, MatchId>): Allowed {
    iset p: (ObservationId, Claim) |
      p.0 in w.observations && w.observations[p.0].channel in owner && owner[w.observations[p.0].channel] == p.1.matchId
  }

  ghost predicate ByChannel(w: World, owner: map<Channel, MatchId>) {
    && (forall id | id in w.links :: w.links[id] in owner && owner[w.links[id]] == id)
    && (forall who | who in w.handlers && w.handlers[who].Authorized? ::
          (w.handlers[who].id, w.handlers[who].claim) in HeardIn(w, owner))
  }

  lemma StaysByChannel(server: P.World, w: World, w': World, move: Move, owner: map<Channel, MatchId>)
    requires Next(server, w, w', move) && SaysStay(w, w') && ByChannel(w, owner)
    requires move.SetsLink? ==> move.channel in owner && owner[move.channel] == move.matchId
    ensures ByChannel(w', owner) && (move.Claims? ==> (move.id, move.claim) in HeardIn(w', owner))
  {
    hide ConfirmationCommitted, Confirms, Complete, Update;
    if move.Settles? {
      var h := w.handlers[move.who];
      UpdateKeepsRest(w, h.id, h.claim.commandId, h.success);
    } else if move.SettlesItem? {
      var h := w.handlers[move.who];
      UpdateKeepsRest(w, h.items[0].0, h.items[0].1.claim.value.commandId, h.finalize);
    }
    forall who | who in w'.handlers && w'.handlers[who].Authorized?
      ensures (w'.handlers[who].id, w'.handlers[who].claim) in HeardIn(w', owner)
    {
      assert w'.handlers[who] == w.handlers[who] || (move.Authorizes? && who == move.who);
    }
  }

  lemma RestingByChannel(w: World, owner: map<Channel, MatchId>)
    requires forall id | id in w.links :: w.links[id] in owner && owner[w.links[id]] == id
    requires forall who | who in w.handlers :: w.handlers[who].Resting?
    ensures ByChannel(w, owner)
  {}

  lemma {:induction false} ChannelsDecide(x: Review, last: World, owner: map<Channel, MatchId>)
    requires Possible(x) && OwnChannels(x, owner) && SaysStay(x.world, last)
    ensures ByChannel(x.world, owner) && OnlyClaims(x, HeardIn(last, owner))
  {
    hide P.Possible, Next, ByChannel;
    match x {
      case Opened(_, w) => RestingByChannel(w, owner);
      case ServerMoved(before, _, _) => ChannelsDecide(before, last, owner);
      case Reviewed(before, move, server, w) =>
        SaysNeverChange(server.world, before.world, w, move);
        ChannelsDecide(before, last, owner);
        StaysByChannel(server.world, before.world, w, move, owner);
    }
  }

  /** If every channel belongs to one match, CONFIRMED means committed, whatever command ids
      are used. */
  lemma OwnChannelsAreSafe(x: Review, owner: map<Channel, MatchId>)
    requires Possible(x) && OwnChannels(x, owner)
    ensures Truthful(x)
  {
    hide Possible, ConfirmationCommitted, OnlyClaims, OwnChannels;
    ChannelsDecide(x, x.world, owner);
    UnmistakableIsTruthful(x, HeardIn(x.world, owner));
  }
}
