/** The availability oracle of internal/matchengine/availability.go, stated as what each
    list of AnalyzeForActor contains, and compared with what Execute accepts. */
module Availability {
  import opened MatchModel
  import opened BoardRules
  import opened Rules
  import opened Validation
  import opened Robbery
  import A = Acceptance
  import Sets

  // ----- the strategist's lists (availability.go 157-191)

  predicate StrategistOpen(s: State, actor: Actor, now: Time) {
    && now != 0 && actor.capability == Strategist && actor.team.Some? && actor.team.value.Valid()
    && s.lifecycle == Running && s.activeTeam == actor.team.value && LiveTimer(s.timer, now)
  }

  predicate BanListed(s: State, id: Id) {
    s.phase == Ban && id in s.pool && s.pool[id].state == Available && s.pool[id].mod != Shiro && s.pool[id].mod != TB
  }

  /** A beatmap may be placed where its mod may lie; an FM piece gets the mod of the quarter. */
  predicate PlacementListed(s: State, id: Id, c: Cell, force: Option<ForceMod>) {
    && s.phase == Pick && id in s.pool && s.pool[id].state == Available && OnBoard(c) && c !in s.board
    && MayLie(s.pool[id].mod, c) && force == ForceOf(s.pool[id].mod, c)
  }

  ghost predicate AvailableShiro(pool: Pool) { exists id :: IsShiroSlot(pool, id) && pool[id].state == Available }

  ghost predicate ShiroCellListed(s: State, c: Cell) { s.phase == Pick && AvailableShiro(s.pool) && Empty(s.board, c) }

  /** robberyPlans also checks lifecycle, phase and the active team. */
  ghost predicate PlanListed(s: State, team: Team, target: Id, sets: seq<seq<Id>>) {
    RunningPhase(s, Pick) && s.activeTeam == team && Planned(s.board, team, target, sets)
  }

  // The two readings of "the Shiro slot" coincide where there is one.
  lemma OneShiro(pool: Pool)
    requires ValidPool(pool)
    ensures AvailableShiro(pool) <==> ShiroAvailable(pool)
  {
    assert SlotsOf(pool, Shiro) != {};
    var id :| id in SlotsOf(pool, Shiro);
    assert IsShiroSlot(pool, id);
    var the := TheShiro(pool);
    forall other | IsShiroSlot(pool, other) ensures other == the {
      assert {other, the} <= SlotsOf(pool, Shiro);
      if other != the { Sets.SubsetIsSmaller({other, the}, SlotsOf(pool, Shiro)); }
    }
  }

  /** In every valid state, at every non-zero time and for every actor: what Execute accepts is
      exactly what the lists of an active strategist contain, with a fresh piece id. */
  lemma StrategistListsAreExact(s: State, actor: Actor, now: Time, id: Id, c: Cell, pieceId: Id)
    requires ValidateState(s) && now != 0
    ensures Execute(s, actor, BanPoolSlot(id), now).Some? <==> StrategistOpen(s, actor, now) && BanListed(s, id)
    ensures Execute(s, actor, PlacePiece(id, pieceId, c), now).Some?
        <==> StrategistOpen(s, actor, now) && FreshPieceId(s.board, pieceId) && exists force :: PlacementListed(s, id, c, force)
    ensures Execute(s, actor, PlaceShiro(pieceId, c), now).Some?
        <==> StrategistOpen(s, actor, now) && FreshPieceId(s.board, pieceId) && ShiroCellListed(s, c)
  {
    hide ValidateState, Execute, FreshPieceId, AvailableShiro, ShiroAvailable;
    OneShiroOf(s);
    A.BanAccepted(s, actor, id, now);
    A.PlaceAccepted(s, actor, id, pieceId, c, now);
    A.ShiroAccepted(s, actor, pieceId, c, now);
    PlacementHasForce(s, id, c);
  }

  lemma OneShiroOf(s: State)
    requires ValidateState(s)
    ensures AvailableShiro(s.pool) <==> ShiroAvailable(s.pool)
  {
    OneShiro(s.pool);
  }

  /** The listed Force Mod is the one the placed piece carries. */
  lemma PlacedForceIsListed(s: State, actor: Actor, now: Time, id: Id, c: Cell, pieceId: Id)
    requires ValidateState(s) && DoPlacePiece(s, actor, id, pieceId, c, now).Some?
    ensures var placed := DoPlacePiece(s, actor, id, pieceId, c, now).value.state.board;
            c in placed && PlacementListed(s, id, c, placed[c].forceMod)
  {
    hide ValidateState, FreshPieceId;
  }

  /** The listed robbery plans are exactly the accepted ones, up to reordering. */
  lemma StrategistPlansAreExact(s: State, actor: Actor, now: Time, target: Id, sets: seq<seq<Id>>)
    requires ValidateState(s) && now != 0
    ensures Execute(s, actor, RobPiece(target, sets), now).Some?
        <==> StrategistOpen(s, actor, now)
             && exists plan :: PlanListed(s, actor.team.value, target, plan) && Reordered(sets, plan)
  {
    hide ValidateState, Execute, RobberyAccepted, Planned, Reordered;
    BoardIsIdentified(s);
    A.RobAccepted(s, actor, target, sets, now);
    RobPieceMatchesPlans(s.board, s.activeTeam, target, sets);
    if StrategistOpen(s, actor, now) && RunningPhase(s, Pick) {
      forall plan ensures PlanListed(s, actor.team.value, target, plan) == Planned(s.board, s.activeTeam, target, plan) {}
    }
  }

  // ----- a fresh piece id always exists

  lemma LongerThanAll(b: Board) returns (bound: nat)
    ensures forall c | c in b :: |b[c].id| < bound
  {
    bound := 0;
    var todo := b.Keys;
    while todo != {}
      invariant todo <= b.Keys
      invariant forall c | c in b.Keys - todo :: |b[c].id| < bound
    {
      var c :| c in todo;
      if bound <= |b[c].id| { bound := |b[c].id| + 1; }
      todo := todo - {c};
    }
  }

  lemma FreshPieceIdExists(b: Board) returns (id: Id)
    ensures FreshPieceId(b, id)
  {
    var bound := LongerThanAll(b);
    id := seq(bound + 1, _ => 'x');
  }

  // ----- the referee's actions (availability.go 208-298)

  datatype Action =
    | ActStart | ActBan | ActPlace | ActShiro | ActRob | ActConfirmResult | ActGrant | ActCalibrate
    | ActPause | ActResume | ActSuspend | ActResumeMatch | ActSkip | ActAbort | ActRequestTB
    | ActRespondTB | ActStartTB | ActConfirmTB | ActSurrender

  predicate ExpiredTimer(s: State, now: Time) { !s.timer.paused && s.timer.duration > 0 && s.timer.Expired(now) }

  predicate CaptainWindow(s: State) { s.phase == Pick && !s.timer.paused && 11 <= s.turn <= 14 }

  ghost predicate RefereeListed(s: State, now: Time, action: Action) {
    && now != 0
    && match s.lifecycle
       case Ready => action == ActStart
       case Suspended =>
         action in {ActResumeMatch, ActAbort, ActSurrender} || (action == ActSkip && s.phase in {Ban, Pick})
       case Running => RefereeListedRunning(s, now, action)
       case _ => false
  }

  ghost predicate RefereeListedRunning(s: State, now: Time, action: Action) {
    match action
    case ActSuspend => true
    case ActAbort => true
    case ActSurrender => true
    case ActResume => s.timer.paused
    case ActCalibrate => s.timer.paused || s.timer.duration > 0
    case ActPause => !s.timer.paused && s.timer.duration > 0
    case ActGrant =>
      && ExpiredTimer(s, now) && s.phase in {Ban, Pick, WaitingForResult} && s.activeTeam.Valid()
      && !Flag(s.used.teamPause, s.activeTeam)
    case ActSkip => ExpiredTimer(s, now) && s.phase in {Ban, Pick}
    case ActBan => !s.timer.paused && exists id :: BanListed(s, id)
    case ActPlace => !s.timer.paused && exists id, c, force :: PlacementListed(s, id, c, force)
    case ActShiro => !s.timer.paused && exists c :: ShiroCellListed(s, c)
    case ActRob => !s.timer.paused && exists team: Team, target, sets :: team.Valid() && PlanListed(s, team, target, sets)
    case ActRequestTB => CaptainWindow(s) && s.pendingTB.None?
    case ActRespondTB => CaptainWindow(s) && s.pendingTB.Some?
    case ActConfirmResult => s.phase == WaitingForResult
    case ActStartTB => s.phase == TBPreparation && !s.timer.paused
    case ActConfirmTB => s.phase == TBPlaying
    case _ => false
  }

  function ActionOf(command: Command): Option<Action> {
    match Underlying(command)
    case StartMatch => Some(ActStart)
    case BanPoolSlot(_) => Some(ActBan)
    case PlacePiece(_, _, _) => Some(ActPlace)
    case PlaceShiro(_, _) => Some(ActShiro)
    case RobPiece(_, _) => Some(ActRob)
    case ConfirmBeatmapResult(_, _) => Some(ActConfirmResult)
    case GrantAdditionalTime(_) => Some(ActGrant)
    case CalibrateTimer(_, _) => Some(ActCalibrate)
    case PauseTimer(_) => Some(ActPause)
    case ResumeTimer(_) => Some(ActResume)
    case SuspendMatch(_) => Some(ActSuspend)
    case ResumeMatch(_) => Some(ActResumeMatch)
    case SkipCurrentAction(_) => Some(ActSkip)
    case AbortMatch(_) => Some(ActAbort)
    case RequestTB(_, _) => Some(ActRequestTB)
    case RespondTBRequest(_, _) => Some(ActRespondTB)
    case StartTB(_) => Some(ActStartTB)
    case ConfirmTBResult(_) => Some(ActConfirmTB)
    case RecordSurrender(_, _, _) => Some(ActSurrender)
    case _ => None
  }

  /** Some command of the listed kind is accepted from a referee. */
  ghost predicate Performable(s: State, now: Time, action: Action) {
    exists command :: ActionOf(command) == Some(action) && Execute(s, REFEREE_ACTOR, command, now).Some?
  }

  lemma Performs(s: State, now: Time, action: Action, command: Command)
    requires !IsProxy(command) && ActionOf(command) == Some(action) && Direct(s, REFEREE_ACTOR, command, now).Some?
    ensures Performable(s, now, action)
  {
    hide Execute, Direct;
    A.DirectIsExecuted(s, REFEREE_ACTOR, command, now);
  }

  // A proxy runs while the strategist's timer is live: at its start if it has run out.
  lemma ProxyTimeIsLive(s: State, now: Time)
    requires !s.timer.paused && s.timer.duration > 0
    ensures LiveTimer(s.timer, ProxyTime(s, now))
  {}

  lemma PlayHasActiveTeam(s: State)
    requires ValidateState(s) && s.lifecycle == Running && (s.phase == Ban || s.phase == Pick)
    ensures s.activeTeam.Valid() && s.timer.duration > 0
  {}

  lemma ProxyPerforms(s: State, now: Time, action: Action, proxy: Command)
    requires ValidateState(s) && s.lifecycle == Running && s.phase in {Ban, Pick} && !s.timer.paused
    requires IsStrategistProxy(proxy) && proxy.actingTeam == s.activeTeam && proxy.reason == "x"
    requires ActionOf(proxy) == Some(action)
    requires StrategistMay(s, StrategistActor(s.activeTeam), s.phase, ProxyTime(s, now)) ==>
               Direct(s, StrategistActor(s.activeTeam), Underlying(proxy), ProxyTime(s, now)).Some?
    ensures Performable(s, now, action)
  {
    hide ValidateState, Execute, Direct;
    PlayHasActiveTeam(s);
    ProxyTimeIsLive(s, now);
    assert !IsSpace("x"[0]);
    A.ProxyIsExecuted(s, REFEREE_ACTOR, proxy, now);
  }

  lemma BanPerforms(s: State, now: Time)
    requires ValidateState(s) && s.lifecycle == Running && RefereeListedRunning(s, now, ActBan)
    ensures Performable(s, now, ActBan)
  {
    hide ValidateState, AdvanceBan, Execute, Performable;
    var id :| BanListed(s, id);
    ProxyPerforms(s, now, ActBan, RefereeBanPoolSlot(s.activeTeam, id, "x"));
  }

  lemma PlacePerforms(s: State, now: Time)
    requires ValidateState(s) && s.lifecycle == Running && RefereeListedRunning(s, now, ActPlace)
    ensures Performable(s, now, ActPlace)
  {
    hide ValidateState, Execute, Performable, FreshPieceId, Empty;
    var id, c, force :| PlacementListed(s, id, c, force);
    var pieceId := FreshPieceIdExists(s.board);
    PlacementHasForce(s, id, c);
    ProxyPerforms(s, now, ActPlace, RefereePlacePiece(s.activeTeam, id, pieceId, c, "x"));
  }

  lemma ShiroPerforms(s: State, now: Time)
    requires ValidateState(s) && s.lifecycle == Running && RefereeListedRunning(s, now, ActShiro)
    ensures Performable(s, now, ActShiro)
  {
    hide ValidateState, Execute, Performable, FreshPieceId, Empty, AvailableShiro, ShiroAvailable, AdvancePick;
    var c :| ShiroCellListed(s, c);
    var pieceId := FreshPieceIdExists(s.board);
    OneShiroOf(s);
    ProxyPerforms(s, now, ActShiro, RefereePlaceShiro(s.activeTeam, pieceId, c, "x"));
  }

  lemma RobPerforms(s: State, now: Time)
    requires ValidateState(s) && s.lifecycle == Running && RefereeListedRunning(s, now, ActRob)
    ensures Performable(s, now, ActRob)
  {
    hide ValidateState, Execute, Performable, Planned, RobberyAccepted, BoardAfterRobbery, HasFour, ShouldForceTB;
    var team: Team, target, sets :| team.Valid() && PlanListed(s, team, target, sets);
    BoardIsIdentified(s);
    PlanHasFewSets(s.board, team, target, sets);
    RobPieceMatchesPlans(s.board, team, target, sets);
    ProxyPerforms(s, now, ActRob, RefereeRobPiece(s.activeTeam, target, sets, "x"));
  }

  lemma PlanHasFewSets(b: Board, team: Team, target: Id, sets: seq<seq<Id>>)
    requires Planned(b, team, target, sets)
    ensures Reordered(sets, sets)
  {}

  lemma CaptainPerforms(s: State, now: Time, action: Action)
    requires ValidateState(s) && s.lifecycle == Running && action in {ActRequestTB, ActRespondTB}
    requires RefereeListedRunning(s, now, action)
    ensures Performable(s, now, action)
  {
    hide ValidateState, Execute, DoStartMatch, DoBan, DoPlacePiece, DoPlaceShiro, DoRob, DoGrant, DoCalibrate,
      DoPause, DoResume, DoSuspend, DoResumeMatch, DoSkip, DoAbort, DoStartTB, DoConfirmTB, DoSurrender,
      DoConfirmResult;
    if s.pendingTB.Some? { PendingHasId(s); }
    assert !IsSpace("x"[0]);
    var proxy :=
      if action == ActRequestTB then RefereeRequestTB(Red, "x", CaptainAgreement, "x")
      else RefereeRespondTBRequest(s.pendingTB.value.requestedBy.Opponent(), s.pendingTB.value.id, false, "x");
    A.CaptainProxyIsExecuted(s, REFEREE_ACTOR, proxy, now);
  }

  lemma RunningHasPhase(s: State)
    requires ValidateState(s) && s.lifecycle == Running
    ensures s.phase != PhaseNone
    ensures s.phase == WaitingForResult ==> s.pendingPiece != "" && HasPiece(s.board, s.pendingPiece)
  {
    if s.phase == WaitingForResult {
      var c :| Waiting(s.board, c) && s.board[c].id == s.pendingPiece;
      assert HasPiece(s.board, s.pendingPiece);
    }
  }

  lemma PendingHasId(s: State)
    requires ValidateState(s) && s.pendingTB.Some?
    ensures s.pendingTB.value.id != "" && s.pendingTB.value.requestedBy.Valid()
  {}

  lemma SuspendedHasEvidence(s: State)
    requires ValidateState(s) && s.lifecycle == Suspended
    ensures s.suspension.Some?
  {}

  lemma TimerPerforms(s: State, now: Time, action: Action)
    requires ValidateState(s) && s.lifecycle == Running
    requires action in {ActSuspend, ActAbort, ActResume, ActCalibrate, ActPause, ActGrant}
    requires RefereeListedRunning(s, now, action)
    ensures Performable(s, now, action)
  {
    hide ValidateState, Execute, Performable, DoStartMatch, DoBan, DoPlacePiece, DoPlaceShiro, DoRob,
      DoResumeMatch, DoSkip, DoRequestTB, DoRespondTB, DoStartTB, DoConfirmTB, DoSurrender, DoConfirmResult;
    RunningHasPhase(s);
    assert !IsSpace("x"[0]);
    match action
    case ActSuspend => Performs(s, now, action, SuspendMatch("x"));
    case ActAbort => Performs(s, now, action, AbortMatch("x"));
    case ActResume => Performs(s, now, action, ResumeTimer("x"));
    case ActCalibrate => Performs(s, now, action, CalibrateTimer(0, "x"));
    case ActPause => Performs(s, now, action, PauseTimer("x"));
    case ActGrant => Performs(s, now, action, GrantAdditionalTime("x"));
  }

  lemma PhasePerforms(s: State, now: Time, action: Action)
    requires ValidateState(s) && s.lifecycle == Running
    requires action in {ActSkip, ActConfirmResult, ActStartTB, ActConfirmTB}
    requires RefereeListedRunning(s, now, action)
    ensures Performable(s, now, action)
  {
    hide ValidateState, Execute, Performable, AdvanceBan, AdvancePick, HasPiece, HasFour, SetOwner,
      DoStartMatch, DoBan, DoPlacePiece, DoPlaceShiro, DoRob, DoGrant, DoCalibrate, DoPause, DoResume,
      DoSuspend, DoResumeMatch, DoAbort, DoRequestTB, DoRespondTB, DoSurrender;
    RunningHasPhase(s);
    assert !IsSpace("x"[0]);
    match action
    case ActSkip => Performs(s, now, action, SkipCurrentAction("x"));
    case ActConfirmResult => Performs(s, now, action, ConfirmBeatmapResult(s.pendingPiece, Red));
    case ActStartTB => Performs(s, now, action, StartTB("x"));
    case ActConfirmTB => Performs(s, now, action, ConfirmTBResult(Red));
  }

  lemma IdlePerforms(s: State, now: Time, action: Action)
    requires ValidateState(s) && (s.lifecycle == Ready || s.lifecycle == Suspended)
    requires RefereeListed(s, now, action) && action != ActSurrender
    ensures Performable(s, now, action)
  {
    hide ValidateState, Execute, Performable, AdvanceBan, AdvancePick, DoBan, DoPlacePiece, DoPlaceShiro,
      DoRob, DoGrant, DoCalibrate, DoPause, DoResume, DoSuspend, DoRequestTB, DoRespondTB, DoStartTB,
      DoConfirmTB, DoSurrender, DoConfirmResult;
    if s.lifecycle == Suspended { SuspendedHasEvidence(s); }
    assert !IsSpace("x"[0]);
    match action
    case ActStart => Performs(s, now, action, StartMatch);
    case ActResumeMatch => Performs(s, now, action, ResumeMatch("x"));
    case ActAbort => Performs(s, now, action, AbortMatch("x"));
    case ActSkip => Performs(s, now, action, SkipCurrentAction("x"));
  }

  /** Whatever the referee's surface lists in a valid state, a referee can do: some
      command of that kind is accepted. RECORD_SURRENDER needs roster evidence. */
  lemma RefereeSurfaceIsSound(s: State, now: Time, action: Action)
    requires ValidateState(s) && RefereeListed(s, now, action) && action != ActSurrender
    ensures Performable(s, now, action)
  {
    hide ValidateState, Performable;
    if s.lifecycle == Ready || s.lifecycle == Suspended {
      IdlePerforms(s, now, action);
    } else {
      match action
      case ActBan => BanPerforms(s, now);
      case ActPlace => PlacePerforms(s, now);
      case ActShiro => ShiroPerforms(s, now);
      case ActRob => RobPerforms(s, now);
      case ActRequestTB => CaptainPerforms(s, now, action);
      case ActRespondTB => CaptainPerforms(s, now, action);
      case ActSkip => PhasePerforms(s, now, action);
      case ActConfirmResult => PhasePerforms(s, now, action);
      case ActStartTB => PhasePerforms(s, now, action);
      case ActConfirmTB => PhasePerforms(s, now, action);
      case _ => TimerPerforms(s, now, action);
    }
  }

  // ----- the referee's lists

  predicate RefereeOpen(s: State, now: Time) { now != 0 && s.lifecycle == Running && !s.timer.paused }

  /** Only a referee acts for others, and says why. */
  predicate ActsFor(actor: Actor, reason: string) {
    actor.capability == Referee && exists i :: 0 <= i < |reason| && !IsSpace(reason[i])
  }

  lemma ReasonGiven(actor: Actor, reason: string)
    ensures ActsFor(actor, reason) <==> RefereeWithReason(actor, reason)
  {}

  // A referee acts for the active team, at a time its strategist could have acted.
  lemma ProxyMay(s: State, team: Team, phase: Phase, now: Time)
    requires ValidateState(s) && now != 0 && (phase == Ban || phase == Pick)
    ensures StrategistMay(s, StrategistActor(team), phase, ProxyTime(s, now))
       <==> team == s.activeTeam && RefereeOpen(s, now) && s.phase == phase
  {
    hide ValidateState;
    if s.lifecycle == Running && s.phase == phase {
      PlayHasActiveTeam(s);
      if !s.timer.paused { ProxyTimeIsLive(s, now); }
    }
  }

  /** In every valid state the bans, placements and Shiro cells listed for the referee are
      exactly the arguments Execute accepts when the referee acts for the active team, with
      a reason and a fresh piece id; for the other team it accepts none. */
  lemma RefereeListsAreExact(s: State, actor: Actor, team: Team, id: Id, c: Cell, pieceId: Id, reason: string, now: Time)
    requires ValidateState(s) && now != 0
    ensures Execute(s, actor, RefereeBanPoolSlot(team, id, reason), now).Some?
       <==> ActsFor(actor, reason) && team == s.activeTeam && RefereeOpen(s, now) && BanListed(s, id)
    ensures Execute(s, actor, RefereePlacePiece(team, id, pieceId, c, reason), now).Some?
       <==> ActsFor(actor, reason) && team == s.activeTeam && RefereeOpen(s, now) && FreshPieceId(s.board, pieceId)
            && exists force :: PlacementListed(s, id, c, force)
    ensures Execute(s, actor, RefereePlaceShiro(team, pieceId, c, reason), now).Some?
       <==> ActsFor(actor, reason) && team == s.activeTeam && RefereeOpen(s, now) && FreshPieceId(s.board, pieceId)
            && ShiroCellListed(s, c)
  {
    hide ValidateState, Execute, Direct, FreshPieceId, AvailableShiro, ShiroAvailable, MissingReason, StrategistMay,
      ProxyTime, Empty;
    var at, acting := ProxyTime(s, now), StrategistActor(team);
    ProxyMay(s, team, Ban, now);
    ProxyMay(s, team, Pick, now);
    OneShiroOf(s);
    if team == s.activeTeam && s.phase in {Ban, Pick} && s.lifecycle == Running { PlayHasActiveTeam(s); }
    A.ProxyIsExecuted(s, actor, RefereeBanPoolSlot(team, id, reason), now);
    A.DirectIsExecuted(s, acting, BanPoolSlot(id), at);
    A.BanAccepted(s, acting, id, at);
    A.ProxyIsExecuted(s, actor, RefereePlacePiece(team, id, pieceId, c, reason), now);
    A.DirectIsExecuted(s, acting, PlacePiece(id, pieceId, c), at);
    A.PlaceAccepted(s, acting, id, pieceId, c, at);
    A.ProxyIsExecuted(s, actor, RefereePlaceShiro(team, pieceId, c, reason), now);
    A.DirectIsExecuted(s, acting, PlaceShiro(pieceId, c), at);
    A.ShiroAccepted(s, acting, pieceId, c, at);
    PlacementHasForce(s, id, c);
    ReasonGiven(actor, reason);
  }

  lemma PlacementHasForce(s: State, id: Id, c: Cell)
    ensures (exists force :: PlacementListed(s, id, c, force))
       <==> (&& s.phase == Pick && id in s.pool && Bannable(s.pool[id]) && Empty(s.board, c)
             && PlacementForceMod(s.pool[id].mod, ZoneAt(c)).Some?)
  {
    if id in s.pool {
      ForceByCell(s.pool[id].mod, c);
      assert s.phase == Pick && Bannable(s.pool[id]) && Empty(s.board, c) && MayLie(s.pool[id].mod, c) ==>
               PlacementListed(s, id, c, ForceOf(s.pool[id].mod, c));
    }
  }

  /** The robberies listed for the referee are the accepted ones, up to reordering. */
  lemma RefereePlansAreExact(s: State, actor: Actor, team: Team, target: Id, sets: seq<seq<Id>>, reason: string, now: Time)
    requires ValidateState(s) && now != 0
    ensures Execute(s, actor, RefereeRobPiece(team, target, sets, reason), now).Some?
       <==> ActsFor(actor, reason) && RefereeOpen(s, now) && exists plan :: PlanListed(s, team, target, plan) && Reordered(sets, plan)
  {
    hide ValidateState, Execute, Direct, MissingReason, StrategistMay, ProxyTime, RobberyAccepted, Planned, Reordered;
    var at, acting := ProxyTime(s, now), StrategistActor(team);
    ProxyMay(s, team, Pick, now);
    BoardIsIdentified(s);
    RobPieceMatchesPlans(s.board, team, target, sets);
    if s.phase == Pick && s.lifecycle == Running { PlayHasActiveTeam(s); }
    A.ProxyIsExecuted(s, actor, RefereeRobPiece(team, target, sets, reason), now);
    A.DirectIsExecuted(s, acting, RobPiece(target, sets), at);
    A.RobAccepted(s, acting, target, sets, at);
    ReasonGiven(actor, reason);
    forall plan ensures PlanListed(s, team, target, plan)
        <==> RunningPhase(s, Pick) && s.activeTeam == team && Planned(s.board, team, target, plan) {}
  }

  /** The teams for which a referee may request the tiebreaker or answer the request. */
  predicate RequestTeamListed(s: State, now: Time, team: Team) {
    now != 0 && s.lifecycle == Running && CaptainWindow(s) && s.pendingTB.None? && team.Valid()
  }

  predicate ResponseTeamListed(s: State, now: Time, team: Team) {
    now != 0 && s.lifecycle == Running && CaptainWindow(s) && s.pendingTB.Some? && team == s.pendingTB.value.requestedBy.Opponent()
  }

  lemma RefereeTBListsAreExact(
      s: State, actor: Actor, team: Team, id: Id, basis: TBBasis, accept: bool, reason: string, now: Time)
    requires ValidateState(s) && now != 0
    ensures Execute(s, actor, RefereeRequestTB(team, id, basis, reason), now).Some?
       <==> ActsFor(actor, reason) && RequestTeamListed(s, now, team) && id != "" && basis == CaptainAgreement
    ensures Execute(s, actor, RefereeRespondTBRequest(team, id, accept, reason), now).Some?
       <==> ActsFor(actor, reason) && ResponseTeamListed(s, now, team) && id == s.pendingTB.value.id
  {
    hide ValidateState, Execute, MissingReason, DoStartMatch, DoBan, DoPlacePiece, DoPlaceShiro, DoRob, DoGrant,
      DoCalibrate, DoPause, DoResume, DoSuspend, DoResumeMatch, DoSkip, DoAbort, DoStartTB, DoConfirmTB, DoSurrender,
      DoConfirmResult;
    if s.pendingTB.Some? { PendingHasId(s); }
    ReasonGiven(actor, reason);
    A.CaptainProxyIsExecuted(s, actor, RefereeRequestTB(team, id, basis, reason), now);
    A.CaptainProxyIsExecuted(s, actor, RefereeRespondTBRequest(team, id, accept, reason), now);
  }
}
