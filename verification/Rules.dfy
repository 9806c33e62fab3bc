/** What one command does to the aggregate (internal/matchengine/engine.go), as a
    function of the state, the actor, the command and the server time. A rejected
    command has no transition. */
module Rules {
  import opened MatchModel
  import opened BoardRules

  // ----- shared guards (engine.go 997-1025)

  predicate RunningPhase(s: State, phase: Phase) { s.lifecycle == Running && s.phase == phase }

  predicate ActiveStrategist(s: State, actor: Actor) {
    && actor.capability == Strategist
    && actor.team.Some? && actor.team.value.Valid() && actor.team.value == s.activeTeam
  }

  predicate LiveTimer(timer: Timer, now: Time) { !timer.paused && !timer.Expired(now) }

  predicate StrategistMay(s: State, actor: Actor, phase: Phase, now: Time) {
    RunningPhase(s, phase) && ActiveStrategist(s, actor) && LiveTimer(s.timer, now)
  }

  predicate Bannable(slot: Slot) { slot.state == Available && slot.mod != Shiro && slot.mod != TB }

  // ----- placement (engine.go 1027-1060)

  function PlacementForceMod(mod: Mod, zone: Zone): Option<Option<ForceMod>> {
    match mod
    case NM => Some(None)
    case HD => if zone == ZoneHD then Some(None) else None
    case HR => if zone == ZoneHR then Some(None) else None
    case DT => if zone == ZoneDT then Some(None) else None
    case FM => Some(Some(match zone case ZoneHD => ForceHD case ZoneHR => ForceHR case ZoneDT => ForceNM))
    case _ => None
  }

  /** The mod of the quarter decides. */
  lemma ForceByCell(mod: Mod, c: Cell)
    ensures PlacementForceMod(mod, ZoneAt(c)) == if MayLie(mod, c) then Some(ForceOf(mod, c)) else None
  {}

  // ----- what can still be placed (availability.go 75-131)

  predicate Selectable(slot: Slot) { slot.state == Available && slot.mod != TB }

  /** A selectable slot fits a cell: Shiro fits every cell. */
  predicate Fits(slot: Slot, c: Cell) {
    Selectable(slot) && (slot.mod == Shiro || PlacementForceMod(slot.mod, ZoneAt(c)).Some?)
  }

  ghost predicate LegalPlacement(pool: Pool, b: Board, id: Id, c: Cell) {
    id in pool && Empty(b, c) && Fits(pool[id], c)
  }

  ghost predicate Stalemated(pool: Pool, b: Board) {
    forall id, c :: !LegalPlacement(pool, b, id, c)
  }

  // ----- robbery (engine.go 287-434)

  predicate ShiroTarget(p: Piece) { p.mod == Shiro && p.outcome == White && p.owner == None }

  predicate OpponentTarget(p: Piece, team: Team) { p.outcome == Won && p.owner == Some(team.Opponent()) }

  function Flatten(sets: seq<seq<Id>>): seq<Id> {
    if sets == [] then [] else Flatten(sets[..|sets| - 1]) + sets[|sets| - 1]
  }

  function Ids(ids: seq<Id>): set<Id> { set i | 0 <= i < |ids| :: ids[i] }

  function BoardAfterRobbery(b: Board, team: Team, target: Id, sacrifice: set<Id>): Board {
    SetOwner(MarkDead(b, sacrifice), target, team)
  }

  ghost predicate RobberyHolds(b: Board, team: Team, target: Id, sacrifice: set<Id>, n: nat) {
    HasPiece(b, target) && Participates(BoardAfterRobbery(b, team, target, sacrifice), team, target, n)
  }

  ghost predicate NormalSacrifice(b: Board, team: Team, sets: seq<seq<Id>>) {
    || (|sets| == 1 && IsAlignment(b, team, sets[0], 3))
    || (|sets| == 2 && IsAlignment(b, team, sets[0], 2) && IsAlignment(b, team, sets[1], 2))
  }

  ghost predicate ShiroSacrifice(b: Board, team: Team, sets: seq<seq<Id>>) {
    |sets| == 1 && IsAlignment(b, team, sets[0], 2)
  }

  ghost predicate RobberyOf(b: Board, team: Team, target: Piece, sets: seq<seq<Id>>) {
    var sacrifice := Ids(Flatten(sets));
    if ShiroTarget(target) then
      ShiroSacrifice(b, team, sets) && RobberyHolds(b, team, target.id, sacrifice, 2)
    else
      OpponentTarget(target, team) && NormalSacrifice(b, team, sets) && RobberyHolds(b, team, target.id, sacrifice, 3)
  }

  /** The rule RobPiece applies to a target and its submitted sacrifice sets. */
  ghost predicate RobberyAccepted(b: Board, team: Team, target: Id, sets: seq<seq<Id>>) {
    && Distinct(Flatten(sets))
    && (exists c :: c in b && b[c].id == target && RobberyOf(b, team, b[c], sets))
  }

  /** A complete sacrifice exists for the target: one listed alignment for the Shiro, one
      listed three or two disjoint listed twos for an opponent piece. */
  ghost predicate SacrificeExists(b: Board, team: Team, target: Piece) {
    var twos, threes := Alignments(b, team, 2, 64), Alignments(b, team, 3, 64);
    if ShiroTarget(target) then
      exists x :: x in twos && RobberyHolds(b, team, target.id, Ids(x.ids), 2)
    else
      && OpponentTarget(target, team)
      && (|| (exists x :: x in threes && RobberyHolds(b, team, target.id, Ids(x.ids), 3))
          || (exists i, j :: 0 <= i < j < |twos| && PairSacrifice(b, team, target.id, twos[i].ids, twos[j].ids)))
  }

  ghost predicate PairSacrifice(b: Board, team: Team, target: Id, x: seq<Id>, y: seq<Id>) {
    Distinct(x + y) && RobberyHolds(b, team, target, Ids(x + y), 3)
  }

  ghost predicate TeamHasLegalRobbery(b: Board, team: Team) {
    exists c :: c in b && SacrificeExists(b, team, b[c])
  }

  // ----- terminal evaluation (engine.go 878-995)

  /** forcedTBRequirementsMet reads these three parts of the state. */
  ghost predicate ForcedTBRequirementsMet(turn: int, b: Board, robbed: map<Team, bool>) {
    && turn >= 15 && !HasFour(b, Red) && !HasFour(b, Blue)
    && (Flag(robbed, Red) || !TeamHasLegalRobbery(b, Red))
    && (Flag(robbed, Blue) || !TeamHasLegalRobbery(b, Blue))
  }

  ghost predicate TBIsForced(s: State) { ForcedTBRequirementsMet(s.turn, s.board, s.used.robbery) }

  ghost predicate ShouldForceTB(s: State) { RunningPhase(s, Pick) && TBIsForced(s) }

  function FinishMatch(s: State, result: Result): State {
    s.(lifecycle := Finished, phase := PhaseNone, activeTeam := NoTeam, timer := NO_TIMER,
       pendingPiece := "", pendingTB := None, suspension := None,
       ending := Ending(Some(result.winner), Some(result), None, ""))
  }

  function PlainResult(winner: Team, reason: ResultReason): Result {
    Result(winner, reason, None, [], 0, 0)
  }

  function StartForcedTB(s: State, now: Time): Transition {
    Transition(
      s.(phase := TBPreparation, activeTeam := NoTeam, pendingTB := None,
         tbEntry := Some(TBEntry(ForcedAfterRobberyChecks, "", NoTeam)),
         timer := StartTimer(now, s.config.timers.tbPreparation)),
      [TBForced, TBPreparationStarted, TimerStarted])
  }

  function ConcludeStalemate(s: State): Transition {
    var red, blue := WonCount(s.board, Red), WonCount(s.board, Blue);
    var s1 := s.(timer := NO_TIMER, pendingTB := None);
    if red == blue then
      Transition(
        s1.(lifecycle := Lifecycle.AdjudicationRequired, phase := PhaseNone, activeTeam := NoTeam,
            ending := s.ending.(stalemate := Some(StalemateEvidence(red, blue)))),
        [StalemateDetected, AdjudicationRaised])
    else
      Transition(
        FinishMatch(s1, Result(if blue > red then Blue else Red, StalemateWonCount, None, [], red, blue)),
        [StalemateDetected, MatchFinished])
  }

  ghost function EnterPickOrTerminal(s: State, now: Time): Transition {
    var expires := s.turn > 14 && s.pendingTB.Some?;
    var s1 := s.(phase := Pick, pendingTB := if s.turn > 14 then None else s.pendingTB);
    var events := if expires then [TBRequestExpired] else [];
    var t :=
      if ShouldForceTB(s1) then StartForcedTB(s1, now)
      else if !Stalemated(s1.pool, s1.board) then
        Transition(s1.(timer := StartTimer(now, s1.config.timers.pick)), [TimerStarted])
      else ConcludeStalemate(s1);
    Transition(t.state, events + t.events)
  }

  ghost function Then(t: Transition, before: seq<EventType>): Transition {
    Transition(t.state, before + t.events)
  }

  // ----- bans (engine.go 106-153, 605-626)

  function BanTeam(firstBan: Team, turn: int): Team {
    if turn == SECOND_BAN_TURN || turn == THIRD_BAN_TURN then firstBan.Opponent() else firstBan
  }

  /** The turn after a ban, or after a skipped one: the next ban, or the first pick. */
  ghost function AdvanceBan(s: State, now: Time): Transition {
    var turn := s.turn + 1;
    if turn > FINAL_BAN_TURN then
      Then(EnterPickOrTerminal(s.(turn := FIRST_PICK_TURN, activeTeam := s.config.firstPick), now),
           [TurnAdvanced, PickPhaseStarted])
    else
      var team := if turn == SECOND_BAN_TURN || turn == THIRD_BAN_TURN || turn == FINAL_BAN_TURN
                  then BanTeam(s.config.firstBan, turn) else s.activeTeam;
      Transition(s.(turn := turn, activeTeam := team, timer := StartTimer(now, s.config.timers.ban)),
                 [TurnAdvanced, TimerStarted])
  }

  ghost function AdvancePick(s: State, now: Time): Transition {
    Then(EnterPickOrTerminal(s.(turn := s.turn + 1, activeTeam := PickTeam(s.config.firstPick, s.turn + 1)), now),
         [TurnAdvanced])
  }

  ghost function DoStartMatch(s: State, actor: Actor, now: Time): Option<Transition> {
    if (actor.capability != Referee && !actor.adminOverride) || s.lifecycle != Ready then None
    else Some(Transition(
      s.(lifecycle := Running, phase := Ban, turn := FIRST_BAN_TURN, activeTeam := s.config.firstBan,
         timer := StartTimer(now, s.config.timers.ban)),
      [MatchStarted, BanPhaseStarted, TimerStarted]))
  }

  ghost function DoBan(s: State, actor: Actor, slotId: Id, now: Time): Option<Transition> {
    if !StrategistMay(s, actor, Ban, now) || slotId !in s.pool || !Bannable(s.pool[slotId]) then None
    else
      var slot := s.pool[slotId];
      Some(Then(AdvanceBan(s.(pool := s.pool[slot.id := slot.(state := Banned)]), now), [PoolSlotBanned]))
  }

  // ----- placement (engine.go 164-276)

  ghost predicate FreshPieceId(b: Board, id: Id) { id != "" && !HasPiece(b, id) }

  ghost function DoPlacePiece(s: State, actor: Actor, slotId: Id, pieceId: Id, c: Cell, now: Time): Option<Transition> {
    if !StrategistMay(s, actor, Pick, now) || !FreshPieceId(s.board, pieceId) then None
    else if slotId !in s.pool || !Bannable(s.pool[slotId]) || !Empty(s.board, c) then None
    else
      var slot := s.pool[slotId];
      var force := PlacementForceMod(slot.mod, ZoneAt(c));
      if force.None? then None
      else
        var piece := Piece(pieceId, slot.id, slot.mod, force.value, s.activeTeam, None, WaitingResult);
        Some(Transition(
          s.(board := s.board[c := piece], pool := s.pool[slot.id := slot.(state := Selected)],
             phase := WaitingForResult, pendingPiece := pieceId,
             timer := StartTimer(now, s.config.timers.confirmation)),
          [PiecePlaced, ResultConfirmationRequested, TimerStarted]))
  }

  /** placeShiro takes the Shiro slot a map iteration meets first. Valid states have one. */
  ghost predicate IsShiroSlot(pool: Pool, id: Id) { id in pool && pool[id].mod == Shiro }

  ghost function TheShiro(pool: Pool): Id
    requires exists id :: IsShiroSlot(pool, id)
  {
    var id :| IsShiroSlot(pool, id); id
  }

  ghost predicate ShiroAvailable(pool: Pool) {
    (exists id :: IsShiroSlot(pool, id)) && pool[TheShiro(pool)].state == Available
  }

  ghost function DoPlaceShiro(s: State, actor: Actor, pieceId: Id, c: Cell, now: Time): Option<Transition> {
    if !StrategistMay(s, actor, Pick, now) || !FreshPieceId(s.board, pieceId) || !Empty(s.board, c)
       || !ShiroAvailable(s.pool) then None
    else
      var slot := s.pool[TheShiro(s.pool)];
      var piece := Piece(pieceId, slot.id, Shiro, None, s.activeTeam, None, White);
      var s1 := s.(board := s.board[c := piece], pool := s.pool[slot.id := slot.(state := Selected)]);
      Some(Then(AdvancePick(s1, now), [EventType.ShiroPlaced]))
  }

  ghost function DoRob(s: State, actor: Actor, target: Id, sets: seq<seq<Id>>, now: Time): Option<Transition> {
    if !StrategistMay(s, actor, Pick, now) || !RobberyAccepted(s.board, s.activeTeam, target, sets) then None
    else
      var team := s.activeTeam;
      var s1 := s.(board := BoardAfterRobbery(s.board, team, target, Ids(Flatten(sets))),
                   used := s.used.(robbery := s.used.robbery[team := true]));
      var events := [PiecesSacrificed, PieceRobbed];
      if HasFour(s1.board, team) then
        Some(Transition(FinishMatch(s1, PlainResult(team, FourAlignment)), events + [MatchFinished]))
      else if ShouldForceTB(s1) then Some(Then(StartForcedTB(s1, now), events))
      else Some(Transition(s1, events))
  }

  // ----- the timer (engine.go 436-580)

  predicate RefereeWithReason(actor: Actor, reason: string) {
    actor.capability == Referee && !MissingReason(reason)
  }

  function DoGrant(s: State, actor: Actor, reason: string, now: Time): Option<Transition> {
    if s.lifecycle != Running || !RefereeWithReason(actor, reason)
       || s.phase !in {Ban, Pick, WaitingForResult} || !s.activeTeam.Valid()
       || !s.timer.Expired(now) || Flag(s.used.teamPause, s.activeTeam) then None
    else
      var duration := match s.phase
                      case Ban => s.config.timers.banAdditional
                      case WaitingForResult => s.config.timers.confirmationAdditional
                      case _ => s.config.timers.pickAdditional;
      Some(Transition(
        s.(used := s.used.(teamPause := s.used.teamPause[s.activeTeam := true]), timer := StartTimer(now, duration)),
        [AdditionalTimeGranted, TimerStarted]))
  }

  predicate HasTimer(s: State) { s.timer.duration > 0 || s.timer.paused }

  function DoCalibrate(s: State, actor: Actor, remaining: Duration, reason: string, now: Time): Option<Transition> {
    if s.lifecycle != Running || s.phase == PhaseNone || !RefereeWithReason(actor, reason)
       || remaining < 0 || !HasTimer(s) then None
    else
      var timer := if s.timer.paused then s.timer.(remainingAtPause := remaining)
                   else StartTimer(now, remaining);
      Some(Transition(s.(timer := timer), [TimerCalibrated]))
  }

  function DoPause(s: State, actor: Actor, reason: string, now: Time): Option<Transition> {
    if s.lifecycle != Running || s.phase == PhaseNone || !RefereeWithReason(actor, reason)
       || !HasTimer(s) || s.timer.paused then None
    else Some(Transition(s.(timer := s.timer.PausedAt(now)), [TimerPaused]))
  }

  function DoResume(s: State, actor: Actor, reason: string, now: Time): Option<Transition> {
    if s.lifecycle != Running || s.phase == PhaseNone || !RefereeWithReason(actor, reason)
       || !s.timer.paused then None
    else Some(Transition(s.(timer := s.timer.ResumedAt(now)), [TimerResumed]))
  }

  function DoSuspend(s: State, actor: Actor, reason: string, now: Time): Option<Transition> {
    if s.lifecycle != Running || !RefereeWithReason(actor, reason) then None
    else
      var stops := HasTimer(s) && !s.timer.paused;
      Some(Transition(
        s.(suspension := Some(Suspension(reason, now, HasTimer(s), s.timer.paused)), lifecycle := Suspended,
           timer := if stops then s.timer.PausedAt(now) else s.timer),
        [MatchSuspended] + if stops then [TimerPaused] else []))
  }

  function DoResumeMatch(s: State, actor: Actor, reason: string, now: Time): Option<Transition> {
    if s.lifecycle != Suspended || s.suspension.None? || !RefereeWithReason(actor, reason) then None
    else
      var restarts := s.suspension.value.hadTimer && !s.suspension.value.timerWasPaused;
      Some(Transition(
        s.(suspension := None, lifecycle := Running,
           timer := if restarts then s.timer.ResumedAt(now) else s.timer),
        [MatchResumed] + if restarts then [TimerResumed] else []))
  }

  // ----- skip and abort (engine.go 582-663)

  ghost function DoSkip(s: State, actor: Actor, reason: string, now: Time): Option<Transition> {
    if !RefereeWithReason(actor, reason) || s.lifecycle !in {Running, Suspended} || s.phase !in {Ban, Pick}
       || (s.lifecycle == Running && !s.timer.Expired(now)) then None
    else
      var s1 := s.(lifecycle := Running, suspension := None);
      var t := Then(if s.phase == Ban then AdvanceBan(s1, now) else AdvancePick(s1, now), [ActionSkipped]);
      if s.lifecycle == Suspended && t.state.lifecycle == Running then
        Some(Transition(
          t.state.(lifecycle := Suspended, timer := t.state.timer.PausedAt(now),
                   suspension := Some(Suspension(reason, now, true, false))),
          t.events + [TimerPaused]))
      else Some(t)
  }

  function DoAbort(s: State, actor: Actor, reason: string): Option<Transition> {
    if s.lifecycle !in {Running, Suspended} || !RefereeWithReason(actor, reason) then None
    else Some(Transition(
      s.(lifecycle := Aborted, phase := PhaseNone, activeTeam := NoTeam, pendingPiece := "",
         pendingTB := None, suspension := None, timer := NO_TIMER,
         ending := s.ending.(abortReason := reason)),
      [MatchAborted]))
  }

  // ----- the tiebreaker (engine.go 665-817)

  predicate CaptainMay(s: State, actor: Actor) {
    && RunningPhase(s, Pick)
    && actor.capability == Captain && actor.team.Some? && actor.team.value.Valid()
    && !s.timer.paused && 11 <= s.turn <= 14
  }

  function DoRequestTB(s: State, actor: Actor, requestId: Id, basis: TBBasis): Option<Transition> {
    if !CaptainMay(s, actor) || requestId == "" || s.pendingTB.Some? || basis != CaptainAgreement then None
    else Some(Transition(
      s.(pendingTB := Some(TBRequest(requestId, actor.team.value, basis))), [TBRequested]))
  }

  function DoRespondTB(s: State, actor: Actor, requestId: Id, accept: bool, now: Time): Option<Transition> {
    if !CaptainMay(s, actor) || s.pendingTB.None? || requestId == "" || requestId != s.pendingTB.value.id
       || actor.team.value == s.pendingTB.value.requestedBy then None
    else
      var pending := s.pendingTB.value;
      if !accept then Some(Transition(s.(pendingTB := None), [TBRequestRejected]))
      else Some(Transition(
        s.(pendingTB := None, phase := TBPreparation, activeTeam := NoTeam,
           tbEntry := Some(TBEntry(pending.basis, pending.id, pending.requestedBy)),
           timer := StartTimer(now, s.config.timers.tbPreparation)),
        [TBRequestAccepted, TBPreparationStarted, TimerStarted]))
  }

  function DoStartTB(s: State, actor: Actor, reason: string, now: Time): Option<Transition> {
    if !RunningPhase(s, TBPreparation) || actor.capability != Referee || s.timer.paused
       || (s.timer.Expired(now) && MissingReason(reason)) then None
    else Some(Transition(s.(phase := TBPlaying, timer := NO_TIMER), [TBStarted, TimerStopped]))
  }

  function DoConfirmTB(s: State, actor: Actor, team: Team): Option<Transition> {
    if !RunningPhase(s, TBPlaying) || actor.capability != Referee || !team.Valid() then None
    else Some(Transition(FinishMatch(s, PlainResult(team, TBResult)), [TBResultConfirmed, MatchFinished]))
  }

  // ----- surrender (engine.go 819-872)

  predicate Rostered(roster: Roster, player: int) { player == roster.leader || player in roster.players }

  /** The submitted ids without repetitions, first occurrences in order. */
  function Unique(submitted: seq<int>): seq<int> {
    if submitted == [] then []
    else
      var rest, last := Unique(submitted[..|submitted| - 1]), submitted[|submitted| - 1];
      if last in rest then rest else rest + [last]
  }

  predicate SurrenderEvidence(roster: Roster, submitted: seq<int>) {
    && (forall i | 0 <= i < |submitted| :: Rostered(roster, submitted[i]))
    && |Unique(submitted)| >= 4 && roster.leader in submitted
  }

  function DoSurrender(s: State, actor: Actor, team: Team, submitted: seq<int>, reason: string): Option<Transition> {
    if s.lifecycle !in {Running, Suspended} || !RefereeWithReason(actor, reason) || !team.Valid()
       || !SurrenderEvidence(RosterOf(s.config.rosters, team), submitted) then None
    else Some(Transition(
      FinishMatch(s, Result(team.Opponent(), Surrender, Some(team), Unique(submitted), 0, 0)),
      [SurrenderRecorded, MatchFinished]))
  }

  // ----- results (engine.go 892-926)

  ghost function DoConfirmResult(s: State, actor: Actor, pieceId: Id, team: Team, now: Time): Option<Transition> {
    if !RunningPhase(s, WaitingForResult) || actor.capability != Referee || pieceId == ""
       || pieceId != s.pendingPiece || !team.Valid() || !HasPiece(s.board, pieceId) then None
    else
      var s1 := s.(board := SetOwner(s.board, pieceId, team), pendingPiece := "");
      var events := [BeatmapResultConfirmed, PieceWon];
      if HasFour(s1.board, team) then
        Some(Transition(FinishMatch(s1, PlainResult(team, FourAlignment)), events + [MatchFinished]))
      else Some(Then(AdvancePick(s1, now), events))
  }

  // ----- referee proxies (engine.go 155-162, 750-778)

  predicate ProxyAllowed(actor: Actor, actingTeam: Team, reason: string) {
    RefereeWithReason(actor, reason) && actingTeam.Valid()
  }

  /** A proxied strategist action runs at the timer's own start once the timer is up. */
  function ProxyTime(s: State, now: Time): Time {
    if !s.timer.paused && s.timer.Expired(now) then s.timer.startedAt else now
  }

  function Proxied(t: Option<Transition>): Option<Transition> {
    if t.None? then None
    else Some(Transition(t.value.state, t.value.events + [RefereeProxyActionRecorded]))
  }

  /** What a proxy command asks the acting team's strategist or captain to do. */
  function Underlying(command: Command): Command {
    match command
    case RefereeBanPoolSlot(_, slotId, _) => BanPoolSlot(slotId)
    case RefereePlacePiece(_, slotId, pieceId, cell, _) => PlacePiece(slotId, pieceId, cell)
    case RefereePlaceShiro(_, pieceId, cell, _) => PlaceShiro(pieceId, cell)
    case RefereeRobPiece(_, target, sets, _) => RobPiece(target, sets)
    case RefereeRequestTB(_, requestId, basis, _) => RequestTB(requestId, basis)
    case RefereeRespondTBRequest(_, requestId, accept, _) => RespondTBRequest(requestId, accept)
    case _ => command
  }

  predicate IsStrategistProxy(command: Command) {
    command.RefereeBanPoolSlot? || command.RefereePlacePiece? || command.RefereePlaceShiro? || command.RefereeRobPiece?
  }

  predicate IsCaptainProxy(command: Command) { command.RefereeRequestTB? || command.RefereeRespondTBRequest? }

  predicate IsProxy(command: Command) { IsStrategistProxy(command) || IsCaptainProxy(command) }

  // ----- Execute (engine.go 10-79)

  ghost function Direct(s: State, actor: Actor, command: Command, now: Time): Option<Transition>
    requires !IsProxy(command)
  {
    match command
    case StartMatch => DoStartMatch(s, actor, now)
    case BanPoolSlot(slotId) => DoBan(s, actor, slotId, now)
    case PlacePiece(slotId, pieceId, c) => DoPlacePiece(s, actor, slotId, pieceId, c, now)
    case PlaceShiro(pieceId, c) => DoPlaceShiro(s, actor, pieceId, c, now)
    case RobPiece(target, sets) => DoRob(s, actor, target, sets, now)
    case GrantAdditionalTime(reason) => DoGrant(s, actor, reason, now)
    case CalibrateTimer(remaining, reason) => DoCalibrate(s, actor, remaining, reason, now)
    case PauseTimer(reason) => DoPause(s, actor, reason, now)
    case ResumeTimer(reason) => DoResume(s, actor, reason, now)
    case SuspendMatch(reason) => DoSuspend(s, actor, reason, now)
    case ResumeMatch(reason) => DoResumeMatch(s, actor, reason, now)
    case SkipCurrentAction(reason) => DoSkip(s, actor, reason, now)
    case AbortMatch(reason) => DoAbort(s, actor, reason)
    case RequestTB(requestId, basis) => DoRequestTB(s, actor, requestId, basis)
    case RespondTBRequest(requestId, accept) => DoRespondTB(s, actor, requestId, accept, now)
    case StartTB(reason) => DoStartTB(s, actor, reason, now)
    case ConfirmTBResult(team) => DoConfirmTB(s, actor, team)
    case RecordSurrender(team, submitted, reason) => DoSurrender(s, actor, team, submitted, reason)
    case ConfirmBeatmapResult(pieceId, team) => DoConfirmResult(s, actor, pieceId, team, now)
    case _ => None
  }

  ghost function Apply(s: State, actor: Actor, command: Command, now: Time): Option<Transition> {
    if IsProxy(command) then
      if !ProxyAllowed(actor, command.actingTeam, command.reason) then None
      else if IsStrategistProxy(command) then
        Proxied(Direct(s, StrategistActor(command.actingTeam), Underlying(command), ProxyTime(s, now)))
      else
        Proxied(Direct(s, CaptainActor(command.actingTeam), Underlying(command), now))
    else Direct(s, actor, command, now)
  }

  ghost function Execute(s: State, actor: Actor, command: Command, now: Time): Option<Transition> {
    var t := Apply(s, actor, command, now);
    if t.None? || t.value.events == [] then None
    else Some(Transition(t.value.state.(version := t.value.state.version + 1), t.value.events))
  }
}
