/** What an accepted command leaves of every part of the state, and what its events tell
    (internal/matchengine/engine.go). Rules follows the handlers, command by command; here each
    part has its own law, over all commands, actors and proxies at once. */
module Outcomes {
  import opened MatchModel
  import opened BoardRules
  import opened Rules
  import opened Validation
  import opened Effects
  import A = Acceptance
  import G = GateExactness

  // ----- who acts, and when

  /** The team a strategist's or captain's command is for. */
  function ActingTeam(actor: Actor, command: Command): Team {
    if IsProxy(command) then command.actingTeam else if actor.team.Some? then actor.team.value else NoTeam
  }

  /** A referee acting for a strategist whose time is up acts at the start of that time. */
  function ActingTime(s: State, command: Command, now: Time): Time {
    if IsStrategistProxy(command) && !s.timer.paused && s.timer.Remaining(now) == 0 then s.timer.startedAt else now
  }

  // ----- phase, lifecycle and turn order

  /** Where the commands lead that neither move the turn nor play a piece. */
  predicate Leads(s: State, s': State, u: Command) {
    match u
    case StartMatch => s'.lifecycle == Running
    case SuspendMatch(_) => s.lifecycle == Running && s'.lifecycle == Suspended && s'.phase == s.phase
    case ResumeMatch(_) => s.lifecycle == Suspended && s'.lifecycle == Running && s'.phase == s.phase
    case AbortMatch(_) => s'.lifecycle == Aborted
    case RecordSurrender(_, _, _) => s'.lifecycle == Finished
    case ConfirmTBResult(_) => RunningPhase(s, TBPlaying) && s'.lifecycle == Finished
    case StartTB(_) => RunningPhase(s, TBPreparation) && RunningPhase(s', TBPlaying)
    case RespondTBRequest(_, accept) => RunningPhase(s, Pick) && RunningPhase(s', if accept then TBPreparation else Pick)
    case RequestTB(_, _) => RunningPhase(s, Pick) && RunningPhase(s', Pick)
    case SkipCurrentAction(_) => InPlay(s') ==> s'.lifecycle == s.lifecycle
    case BanPoolSlot(_) => InPlay(s') ==> s'.lifecycle == Running
    case PlacePiece(_, _, _) => s'.lifecycle == Running
    case PlaceShiro(_, _) => InPlay(s') ==> s'.lifecycle == Running
    case RobPiece(_, _) => InPlay(s') ==> s'.lifecycle == Running
    case ConfirmBeatmapResult(_, _) => InPlay(s') ==> s'.lifecycle == Running
    case _ => s'.lifecycle == s.lifecycle == Running && s'.phase == s.phase
  }

  /** Bans go first, second, second, first; picks alternate. Nobody is to move otherwise. */
  function TeamToMove(config: Config, phase: Phase, turn: int): Team {
    match phase
    case Ban => if turn == -3 || turn == 0 then config.firstBan else config.firstBan.Opponent()
    case Pick => if turn % 2 == 1 then config.firstPick else config.firstPick.Opponent()
    case WaitingForResult => if turn % 2 == 1 then config.firstPick else config.firstPick.Opponent()
    case _ => NoTeam
  }

  // ----- the timer

  /** How long a phase may take; play and ended matches have no timer. */
  function PhaseTime(timers: TimerConfig, phase: Phase): Duration {
    match phase
    case Ban => timers.ban
    case Pick => timers.pick
    case WaitingForResult => timers.confirmation
    case TBPreparation => timers.tbPreparation
    case _ => 0
  }

  function AdditionalTime(timers: TimerConfig, phase: Phase): Duration {
    match phase
    case Ban => timers.banAdditional
    case WaitingForResult => timers.confirmationAdditional
    case _ => timers.pickAdditional
  }

  /** A new phase or turn starts its own time, stopped if the match is suspended. */
  predicate Opens(s': State, at: Time) {
    if PhaseTime(s'.config.timers, s'.phase) == 0 then s'.timer == Timer(0, 0, false, 0)
    else
      && s'.timer.startedAt == at && s'.timer.duration == PhaseTime(s'.config.timers, s'.phase)
      && s'.timer.paused == (s'.lifecycle == Suspended)
      && s'.timer.remainingAtPause == if s'.timer.paused then s'.timer.duration else 0
  }

  predicate Times(s: State, s': State, u: Command, at: Time) {
    match u
    case GrantAdditionalTime(_) =>
      s.timer.Remaining(at) == 0 && s'.timer == Timer(at, AdditionalTime(s.config.timers, s.phase), false, 0)
    case CalibrateTimer(remaining, _) =>
      s'.timer == if s.timer.paused then s.timer.(remainingAtPause := remaining) else Timer(at, remaining, false, 0)
    case PauseTimer(_) => !s.timer.paused && s'.timer == s.timer.(paused := true, remainingAtPause := s.timer.Remaining(at))
    case ResumeTimer(_) => s.timer.paused && s'.timer == Timer(at, s.timer.remainingAtPause, false, 0)
    case SuspendMatch(_) =>
      if s.timer.duration == 0 || s.timer.paused then s'.timer == s.timer
      else s'.timer == s.timer.(paused := true, remainingAtPause := s.timer.Remaining(at))
    case ResumeMatch(_) =>
      if s.timer.duration == 0 || (s.suspension.Some? && s.suspension.value.timerWasPaused) then s'.timer == s.timer
      else s'.timer == Timer(at, s.timer.remainingAtPause, false, 0)
    case _ => if s'.phase == s.phase && s'.turn == s.turn then s'.timer == s.timer else Opens(s', at)
  }

  // ----- what is pending

  /** A captain's request waits for the other team, until turn 14 or the end of play. */
  predicate Asks(s: State, s': State, u: Command, team: Team) {
    match u
    case RequestTB(id, basis) => s.pendingTB.None? && s'.pendingTB == Some(TBRequest(id, team, CaptainAgreement)) && team.Valid()
    case RespondTBRequest(id, _) =>
      s.pendingTB == Some(TBRequest(id, team.Opponent(), CaptainAgreement)) && team.Valid() && s'.pendingTB.None?
    case _ => s'.pendingTB == if InPlay(s') && !InTB(s') && (s'.turn == s.turn || s'.turn <= 14) then s.pendingTB else None
  }

  /** A tiebreaker is entered once, by agreement or because nobody can or may rob any more. */
  ghost predicate Enters(s: State, s': State, u: Command, team: Team) {
    if u.RespondTBRequest? && u.accept then s'.tbEntry == Some(TBEntry(CaptainAgreement, u.requestId, team.Opponent()))
    else if InTB(s') && !InTB(s) then
      s'.tbEntry == Some(TBEntry(ForcedAfterRobberyChecks, "", NoTeam)) && RobbingIsOver(s')
    else s'.tbEntry == s.tbEntry
  }

  /** From turn 15 on, when no team has four and each has robbed or has nothing to rob. */
  ghost predicate RobbingIsOver(s: State) {
    && s.turn >= 15
    && forall team: Team | team.Valid() ::
         !HasFour(s.board, team) && (Flag(s.used.robbery, team) || !TeamHasLegalRobbery(s.board, team))
  }

  predicate Suspends(s: State, s': State, u: Command, at: Time) {
    if s'.lifecycle != Suspended then s'.suspension.None?
    else if u.SuspendMatch? then s'.suspension == Some(Suspension(u.reason, at, s.timer.duration != 0, s.timer.paused))
    else u.SkipCurrentAction? && s'.suspension == Some(Suspension(u.reason, at, true, false))
  }

  // ----- what is played

  /** Only a placement puts a piece on the board: the slot's own, with the Force Mod of the zone. */
  ghost predicate Plays(s: State, s': State, u: Command, team: Team) {
    match u
    case PlacePiece(id, pieceId, c) =>
      && id in s.pool && c in s'.board && s'.pendingPiece == pieceId && team == s.activeTeam && pieceId != ""
      && s'.board[c] == Piece(pieceId, id, s.pool[id].mod, ForceOf(s.pool[id].mod, c), team, None, WaitingResult)
    case PlaceShiro(pieceId, c) =>
      && c in s'.board && s'.pendingPiece == "" && team == s.activeTeam && pieceId != ""
      && exists id :: id in s.pool && s.pool[id].mod == Shiro && s.pool[id].state == Available
           && s'.board[c] == Piece(pieceId, id, Shiro, None, team, None, White)
    case _ => s'.pendingPiece == if s'.phase == WaitingForResult then s.pendingPiece else ""
  }

  predicate Spends(s: State, s': State, u: Command) {
    && s'.used.robbery == (if u.RobPiece? then s.used.robbery[s.activeTeam := true] else s.used.robbery)
    && (u.GrantAdditionalTime? ==> s.activeTeam.Valid() && !Flag(s.used.teamPause, s.activeTeam))
    && s'.used.teamPause == (if u.GrantAdditionalTime? then s.used.teamPause[s.activeTeam := true] else s.used.teamPause)
  }

  // ----- how a match ends

  predicate WinsBy(s': State, team: Team, result: Result) {
    s'.ending == Ending(Some(team), Some(result), None, "") && result.winner == team
  }

  /** More WON pieces win a stalemate. */
  predicate WinsByCount(s': State) {
    var red, blue := WonCount(s'.board, Red), WonCount(s'.board, Blue);
    && red != blue
    && var team := if red > blue then Red else Blue;
       WinsBy(s', team, Result(team, StalemateWonCount, None, [], red, blue))
  }

  ghost predicate Decides(s: State, s': State, u: Command) {
    match s'.lifecycle
    case Finished =>
      (match u
       case ConfirmTBResult(team) => team.Valid() && WinsBy(s', team, Result(team, TBResult, None, [], 0, 0))
       case RecordSurrender(team, submitted, _) =>
         exists evidence :: Firsts(evidence, submitted) && team.Valid()
           && WinsBy(s', team.Opponent(), Result(team.Opponent(), ResultReason.Surrender, Some(team), evidence, 0, 0))
       case RobPiece(_, _) => WinsBy(s', s.activeTeam, Result(s.activeTeam, FourAlignment, None, [], 0, 0))
       case ConfirmBeatmapResult(_, team) =>
         if HasFour(s'.board, team) then WinsBy(s', team, Result(team, FourAlignment, None, [], 0, 0)) else WinsByCount(s')
       case _ => WinsByCount(s'))
    case Aborted => u.AbortMatch? && s'.ending == Ending(None, None, None, u.reason)
    case AdjudicationRequired =>
      && WonCount(s'.board, Red) == WonCount(s'.board, Blue)
      && s'.ending == Ending(None, None, Some(StalemateEvidence(WonCount(s'.board, Red), WonCount(s'.board, Blue))), "")
    case _ => s'.ending == NO_ENDING
  }

  /** The different ids of a list, each where it first occurs. */
  ghost predicate Firsts(firsts: seq<int>, all: seq<int>) {
    && (forall x :: x in firsts <==> x in all)
    && (forall i, j | 0 <= i < j < |firsts| :: firsts[i] != firsts[j] && Comes(all, firsts[i], firsts[j]))
  }

  /** One id occurs before the other does. */
  predicate Comes(all: seq<int>, x: int, y: int) {
    exists i :: 0 <= i < |all| && all[i] == x && y !in all[..i]
  }

  ghost predicate Leaves(s: State, s': State, u: Command, team: Team, at: Time) {
    && Leads(s, s', u) && s'.activeTeam == TeamToMove(s'.config, s'.phase, s'.turn)
    && Times(s, s', u, at) && Asks(s, s', u, team) && Enters(s, s', u, team) && Suspends(s, s', u, at)
    && Plays(s, s', u, team) && Spends(s, s', u) && Decides(s, s', u)
  }

  // ----- what the events tell

  /** A pick begins, or play ends where it would have begun. */
  function Entering(s: State, s': State): seq<EventType> {
    (if s.pendingTB.Some? && s'.turn > 14 then [TBRequestExpired] else [])
    + if s'.phase == Pick then [TimerStarted]
      else if s'.phase == TBPreparation then [TBForced, TBPreparationStarted, TimerStarted]
      else [StalemateDetected, if s'.lifecycle == Finished then MatchFinished else AdjudicationRaised]
  }

  function Advancing(s: State, s': State): seq<EventType> {
    if s'.phase == Ban then [TurnAdvanced, TimerStarted]
    else [TurnAdvanced] + (if s.phase == Ban then [PickPhaseStarted] else []) + Entering(s, s')
  }

  /** The events of a command, told from the states before and after it. */
  function Told(s: State, s': State, u: Command): seq<EventType> {
    match u
    case StartMatch => [MatchStarted, BanPhaseStarted, TimerStarted]
    case BanPoolSlot(_) => [PoolSlotBanned] + Advancing(s, s')
    case PlacePiece(_, _, _) => [PiecePlaced, ResultConfirmationRequested, TimerStarted]
    case PlaceShiro(_, _) => [EventType.ShiroPlaced] + Advancing(s, s')
    case RobPiece(_, _) =>
      [PiecesSacrificed, PieceRobbed] + (if s'.lifecycle == Finished then [MatchFinished]
                                         else if s'.phase == TBPreparation then [TBForced, TBPreparationStarted, TimerStarted] else [])
    case ConfirmBeatmapResult(_, _) =>
      [BeatmapResultConfirmed, PieceWon] + if s'.turn == s.turn then [MatchFinished] else Advancing(s, s')
    case GrantAdditionalTime(_) => [AdditionalTimeGranted, TimerStarted]
    case CalibrateTimer(_, _) => [TimerCalibrated]
    case PauseTimer(_) => [TimerPaused]
    case ResumeTimer(_) => [TimerResumed]
    case SuspendMatch(_) => [MatchSuspended] + if s'.timer.paused && !s.timer.paused then [TimerPaused] else []
    case ResumeMatch(_) => [MatchResumed] + if s.timer.paused && !s'.timer.paused then [TimerResumed] else []
    case SkipCurrentAction(_) => [ActionSkipped] + Advancing(s, s') + (if s'.lifecycle == Suspended then [TimerPaused] else [])
    case AbortMatch(_) => [MatchAborted]
    case RequestTB(_, _) => [TBRequested]
    case RespondTBRequest(_, accept) =>
      if accept then [TBRequestAccepted, TBPreparationStarted, TimerStarted] else [TBRequestRejected]
    case StartTB(_) => [TBStarted, TimerStopped]
    case ConfirmTBResult(_) => [TBResultConfirmed, MatchFinished]
    case RecordSurrender(_, _, _) => [SurrenderRecorded, MatchFinished]
    case _ => []
  }

  function Story(s: State, s': State, command: Command): seq<EventType> {
    Told(s, s', Underlying(command)) + (if IsProxy(command) then [RefereeProxyActionRecorded] else [])
  }

  // ----- proofs

  /** What both laws say of a direct command. */
  ghost predicate Holds(s: State, t: Option<Transition>, u: Command, team: Team, at: Time) {
    t.Some? ==> Leaves(s, t.value.state, u, team, at) && t.value.events == Told(s, t.value.state, u)
  }

  /** A running match about to enter a pick. */
  predicate AtPick(s: State) {
    && s.lifecycle == Running && s.suspension.None? && s.pendingPiece == "" && s.tbEntry.None? && s.ending == NO_ENDING
    && s.turn >= FIRST_PICK_TURN && s.activeTeam == TeamToMove(s.config, Pick, s.turn) && s.config.timers.Valid()
  }

  /** What moving on to another ban or pick leaves of the parts a turn does not touch. */
  ghost predicate Moved(s: State, s': State, now: Time) {
    && s'.config == s.config && s'.used == s.used && s'.board == s.board
    && (if s'.phase == PhaseNone then s'.lifecycle in {Finished, Lifecycle.AdjudicationRequired}
        else s'.lifecycle == Running && s'.phase in {Ban, Pick, TBPreparation})
    && s'.activeTeam == TeamToMove(s'.config, s'.phase, s'.turn) && Opens(s', now)
    && s'.pendingTB == (if s'.phase in {Ban, Pick} && s'.turn <= 14 then s.pendingTB else None)
    && (if InTB(s') then s'.tbEntry == Some(TBEntry(ForcedAfterRobberyChecks, "", NoTeam)) && RobbingIsOver(s')
        else s'.tbEntry == s.tbEntry)
    && s'.suspension.None? && s'.pendingPiece == "" && CountDecides(s')
  }

  ghost predicate CountDecides(s': State) {
    match s'.lifecycle
    case Finished => WinsByCount(s')
    case AdjudicationRequired =>
      && WonCount(s'.board, Red) == WonCount(s'.board, Blue)
      && s'.ending == Ending(None, None, Some(StalemateEvidence(WonCount(s'.board, Red), WonCount(s'.board, Blue))), "")
    case _ => s'.ending == NO_ENDING
  }

  lemma ForcedEntry(s: State, now: Time)
    requires AtPick(s) && TBIsForced(s)
    ensures Moved(s, StartForcedTB(s, now).state, now)
  {
    hide HasFour, TeamHasLegalRobbery, WonCount;
  }

  lemma StalemateEntry(s: State, now: Time)
    requires AtPick(s)
    ensures Moved(s, ConcludeStalemate(s).state, now)
  {
    hide HasFour, TeamHasLegalRobbery, WonCount;
  }

  lemma EnteringIsToldRight(s: State, now: Time)
    requires AtPick(s)
    ensures var t := EnterPickOrTerminal(s, now);
            Moved(s, t.state, now) && t.state.turn == s.turn && t.state.phase != Ban && t.events == Entering(s, t.state)
  {
    hide ForcedTBRequirementsMet, Stalemated, WonCount, RobbingIsOver;
    var s1 := s.(phase := Pick, pendingTB := if s.turn > 14 then None else s.pendingTB);
    if ShouldForceTB(s1) { ForcedEntry(s1, now); } else if Stalemated(s1.pool, s1.board) { StalemateEntry(s1, now); }
  }

  lemma AdvancedBan(s: State, now: Time)
    requires s.lifecycle == Running && s.phase == Ban && s.suspension.None? && s.pendingPiece == "" && s.tbEntry.None?
    requires s.ending == NO_ENDING && FIRST_BAN_TURN <= s.turn <= FINAL_BAN_TURN && s.config.timers.Valid()
    requires s.activeTeam == TeamToMove(s.config, Ban, s.turn) && s.pendingTB.None?
    ensures var t := AdvanceBan(s, now); t.events == Advancing(s, t.state) && Moved(s, t.state, now) && t.state.turn == s.turn + 1
  {
    hide EnterPickOrTerminal;
    if s.turn == FINAL_BAN_TURN {
      EnteringIsToldRight(s.(turn := FIRST_PICK_TURN, activeTeam := s.config.firstPick), now);
    }
  }

  lemma AdvancedPick(s: State, now: Time)
    requires s.lifecycle == Running && s.phase != Ban && s.suspension.None? && s.pendingPiece == "" && s.tbEntry.None?
    requires s.ending == NO_ENDING && s.turn >= FIRST_PICK_TURN && s.config.timers.Valid()
    ensures var t := AdvancePick(s, now);
            t.events == Advancing(s, t.state) && t.state.turn == s.turn + 1 && t.state.phase != Ban && Moved(s, t.state, now)
  {
    hide EnterPickOrTerminal;
    EnteringIsToldRight(s.(turn := s.turn + 1, activeTeam := PickTeam(s.config.firstPick, s.turn + 1)), now);
  }

  // ----- command by command

  /** What a valid state in play offers the proofs. */
  ghost predicate Sane(s: State) {
    && s.config.timers.Valid() && ValidTurnAndTimer(s) && ValidLifecycle(s) && ValidPendingTB(s)
    && (InPlay(s) && !InTB(s) ==> s.tbEntry.None?)
    && (s.phase != WaitingForResult ==> s.pendingPiece == "")
    && (forall id | id in s.pool :: s.pool[id].id == id)
  }

  lemma ValidIsSane(s: State)
    requires ValidateState(s)
    ensures Sane(s)
  {
    hide ValidRosters, TBIsForced, ValidBoard, Stalemated;
  }

  lemma BanOutcome(s: State, actor: Actor, id: Id, now: Time)
    requires Sane(s)
    ensures Holds(s, DoBan(s, actor, id, now), BanPoolSlot(id), ActingTeam(actor, BanPoolSlot(id)), now)
  {
    hide AdvanceBan, LiveTimer, HasFour, TeamHasLegalRobbery, RobbingIsOver;
    if DoBan(s, actor, id, now).Some? { AdvancedBan(s.(pool := s.pool[id := s.pool[id].(state := Banned)]), now); }
  }

  lemma PlaceOutcome(s: State, actor: Actor, id: Id, pieceId: Id, c: Cell, now: Time)
    requires Sane(s)
    ensures var u := PlacePiece(id, pieceId, c); Holds(s, DoPlacePiece(s, actor, id, pieceId, c, now), u, ActingTeam(actor, u), now)
  {
    hide LiveTimer, HasFour, TeamHasLegalRobbery, HasPiece, RobbingIsOver;
  }

  lemma ShiroOutcome(s: State, actor: Actor, pieceId: Id, c: Cell, now: Time)
    requires Sane(s)
    ensures var u := PlaceShiro(pieceId, c); Holds(s, DoPlaceShiro(s, actor, pieceId, c, now), u, ActingTeam(actor, u), now)
  {
    hide AdvancePick, LiveTimer, HasFour, TeamHasLegalRobbery, HasPiece, RobbingIsOver, WonCount;
    if DoPlaceShiro(s, actor, pieceId, c, now).Some? {
      var slot := s.pool[TheShiro(s.pool)];
      var piece := Piece(pieceId, slot.id, Shiro, None, s.activeTeam, None, White);
      AdvancedPick(s.(board := s.board[c := piece], pool := s.pool[slot.id := slot.(state := Selected)]), now);
    }
  }

  lemma RobbedOutcome(s: State, s1: State, s': State, u: Command, at: Time)
    requires Sane(s) && RunningPhase(s, Pick) && s.activeTeam.Valid() && u.RobPiece?
    requires s1 == s.(board := s1.board, used := s.used.(robbery := s.used.robbery[s.activeTeam := true]))
    requires s' == if HasFour(s1.board, s.activeTeam) then FinishMatch(s1, PlainResult(s.activeTeam, FourAlignment))
                   else if TBIsForced(s1) then StartForcedTB(s1, at).state else s1
    ensures Leaves(s, s', u, s.activeTeam, at)
  {
    hide HasFour, TeamHasLegalRobbery;
  }

  lemma RobOutcome(s: State, actor: Actor, target: Id, sets: seq<seq<Id>>, now: Time)
    requires Sane(s)
    ensures var u := RobPiece(target, sets); Holds(s, DoRob(s, actor, target, sets, now), u, ActingTeam(actor, u), now)
  {
    hide LiveTimer, HasFour, TeamHasLegalRobbery, RobberyAccepted, BoardAfterRobbery, Leaves, Sane, ForcedTBRequirementsMet;
    var t := DoRob(s, actor, target, sets, now);
    if t.Some? {
      var s1 := s.(board := BoardAfterRobbery(s.board, s.activeTeam, target, Ids(Flatten(sets))),
                   used := s.used.(robbery := s.used.robbery[s.activeTeam := true]));
      RobbedOutcome(s, s1, t.value.state, RobPiece(target, sets), now);
    }
  }

  // A turn has moved on from a pick, from a result, or past a skipped action.
  lemma MovedOutcome(s: State, s1: State, s': State, u: Command, team: Team, at: Time)
    requires Sane(s) && InPlay(s) && !InTB(s) && Moved(s1, s', at) && s'.turn == s.turn + 1
    requires s1.pendingTB == s.pendingTB && s1.tbEntry == s.tbEntry
    requires u.PlaceShiro? || u.ConfirmBeatmapResult?
    ensures Times(s, s', u, at) && Asks(s, s', u, team) && Enters(s, s', u, team) && Suspends(s, s', u, at)
    ensures s'.activeTeam == TeamToMove(s'.config, s'.phase, s'.turn)
  {
    hide RobbingIsOver, WinsByCount, WonCount, ValidTurnAndTimer;
  }

  lemma FourOutcome(s: State, b: Board, u: Command, team: Team, at: Time)
    requires Sane(s) && RunningPhase(s, WaitingForResult)
    requires u.ConfirmBeatmapResult? && u.winningTeam.Valid() && HasFour(b, u.winningTeam)
    ensures var s' := FinishMatch(s.(board := b, pendingPiece := ""), PlainResult(u.winningTeam, FourAlignment));
            Leaves(s, s', u, team, at) && s'.turn == s.turn
  {
    hide HasFour, RobbingIsOver;
  }

  lemma ConfirmOutcome(s: State, actor: Actor, pieceId: Id, team: Team, now: Time)
    requires Sane(s)
    ensures var u := ConfirmBeatmapResult(pieceId, team);
            Holds(s, DoConfirmResult(s, actor, pieceId, team, now), u, ActingTeam(actor, u), now)
  {
    hide AdvancePick, HasFour, SetOwner, HasPiece, Times, Asks, Enters, Suspends, WinsByCount, WonCount, Sane, Moved, FinishMatch;
    var u, t := ConfirmBeatmapResult(pieceId, team), DoConfirmResult(s, actor, pieceId, team, now);
    var s1 := s.(board := SetOwner(s.board, pieceId, team), pendingPiece := "");
    if t.Some? && HasFour(s1.board, team) {
      FourOutcome(s, s1.board, u, ActingTeam(actor, u), now);
    } else if t.Some? {
      ResultMovesOn(s, s1, now);
      MovedOutcome(s, s1, t.value.state, u, ActingTeam(actor, u), now);
      ConfirmDecides(s, s1, t.value.state, u, ActingTeam(actor, u), now);
    }
  }

  lemma ResultMovesOn(s: State, s1: State, now: Time)
    requires Sane(s) && RunningPhase(s, WaitingForResult) && s1 == s.(board := s1.board, pendingPiece := "")
    ensures var t := AdvancePick(s1, now);
            t.events == Advancing(s, t.state) && Moved(s1, t.state, now) && t.state.turn == s.turn + 1
  {
    hide AdvancePick, Moved;
    AdvancedPick(s1, now);
  }

  lemma ConfirmDecides(s: State, s1: State, s': State, u: Command, team: Team, at: Time)
    requires u.ConfirmBeatmapResult? && Moved(s1, s', at) && s.phase == WaitingForResult && s'.turn == s.turn + 1
    requires s1 == s.(board := s1.board, pendingPiece := "") && !HasFour(s1.board, u.winningTeam)
    ensures Leads(s, s', u) && Plays(s, s', u, team) && Spends(s, s', u) && Decides(s, s', u)
  {
    hide HasFour, WinsByCount, WonCount, RobbingIsOver;
  }

  // After a skip a match that was suspended is again, if it goes on.
  function Resuspended(s: State, x: State, reason: string, at: Time): State {
    if s.lifecycle == Suspended && x.lifecycle == Running then
      x.(lifecycle := Suspended, timer := x.timer.PausedAt(at), suspension := Some(Suspension(reason, at, true, false)))
    else x
  }

  lemma SkippedTurn(s: State, s1: State, x: State, reason: string, team: Team, at: Time)
    requires Sane(s) && InPlay(s) && s.phase in {Ban, Pick} && s1 == s.(lifecycle := Running, suspension := None)
    requires Moved(s1, x, at) && x.turn == s.turn + 1
    ensures var u, s' := SkipCurrentAction(reason), Resuspended(s, x, reason, at);
            && Times(s, s', u, at) && Asks(s, s', u, team) && Enters(s, s', u, team) && Suspends(s, s', u, at)
            && s'.activeTeam == TeamToMove(s'.config, s'.phase, s'.turn)
  {
    hide RobbingIsOver, WinsByCount, WonCount;
    var s' := Resuspended(s, x, reason, at);
    assert s'.pendingTB == x.pendingTB && s'.phase == x.phase && s'.turn == x.turn && (InPlay(s') <==> x.lifecycle == Running);
    RobbingReads(x, s');
  }

  lemma RobbingReads(s: State, s': State)
    requires s'.turn == s.turn && s'.board == s.board && s'.used == s.used
    ensures RobbingIsOver(s') == RobbingIsOver(s)
  {
    hide HasFour, TeamHasLegalRobbery;
  }

  lemma SkippedRest(s: State, s1: State, x: State, reason: string, team: Team, at: Time)
    requires s.phase in {Ban, Pick} && InPlay(s) && s1 == s.(lifecycle := Running, suspension := None) && Moved(s1, x, at)
    ensures var u, s' := SkipCurrentAction(reason), Resuspended(s, x, reason, at);
            && Leads(s, s', u) && Plays(s, s', u, team) && Spends(s, s', u) && Decides(s, s', u)
            && Advancing(s, s') == Advancing(s1, x)
  {
    hide RobbingIsOver, WinsByCount, WonCount;
  }

  lemma SkipOutcome(s: State, actor: Actor, reason: string, now: Time)
    requires Sane(s)
    ensures var u := SkipCurrentAction(reason); Holds(s, DoSkip(s, actor, reason, now), u, ActingTeam(actor, u), now)
  {
    hide AdvanceBan, AdvancePick, MissingReason, Times, Asks, Enters, Suspends, Leads, Plays, Spends, Decides, Moved, TeamToMove;
    var s1 := s.(lifecycle := Running, suspension := None);
    var t := DoSkip(s, actor, reason, now);
    if t.Some? {
      SkipMovesOn(s, now);
      var x := if s.phase == Ban then AdvanceBan(s1, now).state else AdvancePick(s1, now).state;
      SkippedTurn(s, s1, x, reason, ActingTeam(actor, SkipCurrentAction(reason)), now);
      SkippedRest(s, s1, x, reason, ActingTeam(actor, SkipCurrentAction(reason)), now);
      assert t.value.state == Resuspended(s, x, reason, now);
    }
  }

  lemma SkipMovesOn(s: State, now: Time)
    requires Sane(s) && InPlay(s) && s.phase in {Ban, Pick}
    ensures var s1 := s.(lifecycle := Running, suspension := None);
            var t := if s.phase == Ban then AdvanceBan(s1, now) else AdvancePick(s1, now);
            && t.events == Advancing(s1, t.state) && Moved(s1, t.state, now) && t.state.turn == s.turn + 1
            && t.state.lifecycle != Suspended
  {
    hide AdvanceBan, AdvancePick, RobbingIsOver, WinsByCount, WonCount;
    var s1 := s.(lifecycle := Running, suspension := None);
    if s.phase == Ban { AdvancedBan(s1, now); } else { AdvancedPick(s1, now); }
  }

  lemma {:induction false} UniqueAreFirsts(all: seq<int>)
    ensures Firsts(Unique(all), all)
  {
    if all != [] {
      var front, last := all[..|all| - 1], all[|all| - 1];
      UniqueAreFirsts(front);
      var firsts := Unique(all);
      forall i, j | 0 <= i < j < |firsts| ensures firsts[i] != firsts[j] && Comes(all, firsts[i], firsts[j]) {
        if j < |Unique(front)| {
          var k :| 0 <= k < |front| && front[k] == firsts[i] && firsts[j] !in front[..k];
          assert all[..k] == front[..k] && all[k] == firsts[i];
        } else {
          assert firsts[i] in Unique(front);
          var k :| 0 <= k < |front| && front[k] == firsts[i];
          assert all[..k] <= front && all[k] == firsts[i];
        }
      }
    }
  }

  lemma SurrenderOutcome(s: State, actor: Actor, team: Team, submitted: seq<int>, reason: string, now: Time)
    requires Sane(s)
    ensures var u := RecordSurrender(team, submitted, reason);
            Holds(s, DoSurrender(s, actor, team, submitted, reason), u, ActingTeam(actor, u), now)
  {
    hide HasFour, TeamHasLegalRobbery, MissingReason, SurrenderEvidence, Unique, RobbingIsOver, Firsts;
    UniqueAreFirsts(submitted);
  }

  lemma AgreementOutcome(s: State, actor: Actor, u: Command, now: Time)
    requires Sane(s) && (u.RequestTB? || u.RespondTBRequest?)
    ensures Holds(s, Direct(s, actor, u, now), u, ActingTeam(actor, u), now)
  {
    hide HasFour, TeamHasLegalRobbery, MissingReason, DoStartMatch, DoBan, DoPlacePiece, DoPlaceShiro, DoRob, DoGrant,
      DoCalibrate, DoPause, DoResume, DoSuspend, DoResumeMatch, DoSkip, DoAbort, DoSurrender, DoConfirmResult, DoStartTB,
      DoConfirmTB, RobbingIsOver, WonCount;
  }

  lemma TBOutcome(s: State, actor: Actor, u: Command, now: Time)
    requires Sane(s) && (u.StartTB? || u.ConfirmTBResult?)
    ensures Holds(s, Direct(s, actor, u, now), u, ActingTeam(actor, u), now)
  {
    hide HasFour, TeamHasLegalRobbery, MissingReason, DoStartMatch, DoBan, DoPlacePiece, DoPlaceShiro, DoRob, DoGrant,
      DoCalibrate, DoPause, DoResume, DoSuspend, DoResumeMatch, DoSkip, DoAbort, DoSurrender, DoConfirmResult, DoRequestTB,
      DoRespondTB, RobbingIsOver, WonCount;
  }

  lemma TimerOutcome(s: State, actor: Actor, u: Command, now: Time)
    requires Sane(s) && (u.GrantAdditionalTime? || u.CalibrateTimer? || u.PauseTimer? || u.ResumeTimer?)
    ensures Holds(s, Direct(s, actor, u, now), u, ActingTeam(actor, u), now)
  {
    hide HasFour, TeamHasLegalRobbery, MissingReason, DoStartMatch, DoBan, DoPlacePiece, DoPlaceShiro, DoRob, DoSkip,
      DoAbort, DoRequestTB, DoRespondTB, DoStartTB, DoConfirmTB, DoSurrender, DoConfirmResult, DoSuspend, DoResumeMatch,
      RobbingIsOver, WonCount;
  }

  lemma SuspendOutcome(s: State, actor: Actor, u: Command, now: Time)
    requires Sane(s) && (u.SuspendMatch? || u.ResumeMatch?)
    ensures Holds(s, Direct(s, actor, u, now), u, ActingTeam(actor, u), now)
  {
    hide HasFour, TeamHasLegalRobbery, MissingReason, DoStartMatch, DoBan, DoPlacePiece, DoPlaceShiro, DoRob, DoSkip,
      DoAbort, DoRequestTB, DoRespondTB, DoStartTB, DoConfirmTB, DoSurrender, DoConfirmResult, DoGrant, DoCalibrate,
      DoPause, DoResume, RobbingIsOver, WonCount;
  }

  lemma EdgeOutcome(s: State, actor: Actor, u: Command, now: Time)
    requires Sane(s) && (u.StartMatch? || u.AbortMatch? || u.OtherCommand?)
    ensures Holds(s, Direct(s, actor, u, now), u, ActingTeam(actor, u), now)
  {
    hide HasFour, TeamHasLegalRobbery, MissingReason, DoBan, DoPlacePiece, DoPlaceShiro, DoRob, DoGrant, DoCalibrate,
      DoPause, DoResume, DoSuspend, DoResumeMatch, DoSkip, DoRequestTB, DoRespondTB, DoStartTB, DoConfirmTB, DoSurrender,
      DoConfirmResult, RobbingIsOver;
  }

  lemma DirectOutcome(s: State, actor: Actor, u: Command, now: Time)
    requires Sane(s) && !IsProxy(u)
    ensures Holds(s, Direct(s, actor, u, now), u, ActingTeam(actor, u), now)
  {
    hide Sane, Holds, DoBan, DoPlacePiece, DoPlaceShiro, DoRob, DoSkip, DoSurrender, DoConfirmResult;
    match u
    case BanPoolSlot(id) => BanOutcome(s, actor, id, now);
    case PlacePiece(id, pieceId, c) => PlaceOutcome(s, actor, id, pieceId, c, now);
    case PlaceShiro(pieceId, c) => ShiroOutcome(s, actor, pieceId, c, now);
    case RobPiece(target, sets) => RobOutcome(s, actor, target, sets, now);
    case ConfirmBeatmapResult(pieceId, team) => ConfirmOutcome(s, actor, pieceId, team, now);
    case SkipCurrentAction(reason) => SkipOutcome(s, actor, reason, now);
    case RecordSurrender(team, submitted, reason) => SurrenderOutcome(s, actor, team, submitted, reason, now);
    case RequestTB(_, _) => AgreementOutcome(s, actor, u, now);
    case RespondTBRequest(_, _) => AgreementOutcome(s, actor, u, now);
    case StartTB(_) => TBOutcome(s, actor, u, now);
    case ConfirmTBResult(_) => TBOutcome(s, actor, u, now);
    case StartMatch => EdgeOutcome(s, actor, u, now);
    case AbortMatch(_) => EdgeOutcome(s, actor, u, now);
    case OtherCommand => EdgeOutcome(s, actor, u, now);
    case SuspendMatch(_) => SuspendOutcome(s, actor, u, now);
    case ResumeMatch(_) => SuspendOutcome(s, actor, u, now);
    case _ => TimerOutcome(s, actor, u, now);
  }

  // ----- the laws

  lemma ProxyTimes(s: State, command: Command, now: Time)
    requires Sane(s)
    ensures IsStrategistProxy(command) ==> ProxyTime(s, now) == ActingTime(s, command, now)
  {
    hide ValidLifecycle, ValidPendingTB;
  }

  // Neither law reads the version, which Execute bumps.
  lemma ClockIgnoresVersion(s: State, x: State, u: Command, at: Time)
    ensures Leads(s, x.(version := x.version + 1), u) == Leads(s, x, u)
    ensures Times(s, x.(version := x.version + 1), u, at) == Times(s, x, u, at)
  {}

  lemma AskingIgnoresVersion(s: State, x: State, u: Command, team: Team)
    ensures Asks(s, x, u, team) ==> Asks(s, x.(version := x.version + 1), u, team)
  {}

  lemma EntryIgnoresVersion(s: State, x: State, u: Command, team: Team)
    ensures Enters(s, x, u, team) ==> Enters(s, x.(version := x.version + 1), u, team)
  {
    hide RobbingIsOver;
    RobbingReads(x, x.(version := x.version + 1));
  }

  lemma SuspensionIgnoresVersion(s: State, x: State, u: Command, at: Time)
    ensures Suspends(s, x, u, at) ==> Suspends(s, x.(version := x.version + 1), u, at)
  {}

  lemma PlayIgnoresVersion(s: State, x: State, u: Command, team: Team)
    ensures var y := x.(version := x.version + 1);
            Plays(s, y, u, team) == Plays(s, x, u, team) && Spends(s, y, u) == Spends(s, x, u)
  {}

  lemma EndIgnoresVersion(s: State, x: State, u: Command)
    requires Decides(s, x, u)
    ensures Decides(s, x.(version := x.version + 1), u)
  {
    hide HasFour, WonCount, Firsts;
  }

  lemma ToldIgnoresVersion(s: State, x: State, u: Command)
    ensures Told(s, x.(version := x.version + 1), u) == Told(s, x, u)
  {}

  lemma OutcomeIgnoresVersion(s: State, x: State, u: Command, team: Team, at: Time)
    requires Leaves(s, x, u, team, at)
    ensures Leaves(s, x.(version := x.version + 1), u, team, at)
  {
    hide Leads, Times, Asks, Enters, Suspends, TeamToMove, Plays, Spends, Decides;
    ClockIgnoresVersion(s, x, u, at);
    AskingIgnoresVersion(s, x, u, team);
    EntryIgnoresVersion(s, x, u, team);
    SuspensionIgnoresVersion(s, x, u, at);
    PlayIgnoresVersion(s, x, u, team);
    EndIgnoresVersion(s, x, u);
  }

  /** Whatever Execute accepts from a valid state, by whomever it is sent, leaves every part of
      the state as these laws say and emits exactly the events that tell it. */
  lemma CommandsDo(s: State, actor: Actor, command: Command, now: Time)
    requires ValidateState(s) && Execute(s, actor, command, now).Some?
    ensures var t := Execute(s, actor, command, now).value;
            var u := Underlying(command);
            && NetEffect(s, t.state, u) && t.state.version == s.version + 1
            && Leaves(s, t.state, u, ActingTeam(actor, command), ActingTime(s, command, now))
            && t.events == Story(s, t.state, command)
  {
    hide ValidateState, Direct, NetEffect, Leaves, Told, Sane;
    ValidIsSane(s);
    ExecuteShows(s, actor, command, now);
    ProxyEffect(s, Execute(s, actor, command, now).value.state, command);
    G.VersionOnlyGrows(s, actor, command, now);
    ProxyTimes(s, command, now);
    var u := Underlying(command);
    if IsStrategistProxy(command) {
      DirectOutcome(s, StrategistActor(command.actingTeam), u, ProxyTime(s, now));
    } else if IsCaptainProxy(command) {
      DirectOutcome(s, CaptainActor(command.actingTeam), u, now);
    } else {
      DirectOutcome(s, actor, command, now);
    }
    ToldIgnoresVersion(s, Apply(s, actor, command, now).value.state, u);
    OutcomeIgnoresVersion(s, Apply(s, actor, command, now).value.state, u, ActingTeam(actor, command), ActingTime(s, command, now));
  }

  // ----- proxies

  /** The referee's record of having acted for somebody. */
  ghost function Recorded(t: Option<Transition>): Option<Transition> {
    if t.None? then None else Some(t.value.(events := t.value.events + [RefereeProxyActionRecorded]))
  }

  /** What Execute makes of a command it passes on. */
  lemma ProxiedIsExecuted(s: State, acting: Actor, u: Command, at: Time)
    requires !IsProxy(u)
    ensures Execute(s, acting, u, at) ==
              if Direct(s, acting, u, at).None? then None
              else Some(Direct(s, acting, u, at).value.(state := Direct(s, acting, u, at).value.state.(version :=
                     Direct(s, acting, u, at).value.state.version + 1)))
  {
    hide Direct;
    A.DirectIsExecuted(s, acting, u, at);
  }

  predicate GivesReason(actor: Actor, team: Team, reason: string) {
    actor.capability == Referee && team != NoTeam && exists i :: 0 <= i < |reason| && !IsSpace(reason[i])
  }

  /** A referee who acts for a team, with a reason, does exactly what the team's strategist or
      captain would have done, and it is recorded; a strategist's time that is up does not count. */
  lemma ProxiesActForTeams(s: State, actor: Actor, team: Team, reason: string, now: Time)
    requires ValidateState(s)
    ensures !GivesReason(actor, team, reason) ==> forall command |
              IsProxy(command) && command.actingTeam == team && command.reason == reason :: Execute(s, actor, command, now).None?
    ensures GivesReason(actor, team, reason) ==>
      var at := if !s.timer.paused && s.timer.Remaining(now) == 0 then s.timer.startedAt else now;
      var strategist, captain := Actor(Strategist, Some(team), false), Actor(Captain, Some(team), false);
      && (forall id :: Execute(s, actor, RefereeBanPoolSlot(team, id, reason), now)
                    == Recorded(Execute(s, strategist, BanPoolSlot(id), at)))
      && (forall id, pieceId, c :: Execute(s, actor, RefereePlacePiece(team, id, pieceId, c, reason), now)
                                == Recorded(Execute(s, strategist, PlacePiece(id, pieceId, c), at)))
      && (forall pieceId, c :: Execute(s, actor, RefereePlaceShiro(team, pieceId, c, reason), now)
                            == Recorded(Execute(s, strategist, PlaceShiro(pieceId, c), at)))
      && (forall target, sets :: Execute(s, actor, RefereeRobPiece(team, target, sets, reason), now)
                              == Recorded(Execute(s, strategist, RobPiece(target, sets), at)))
      && (forall id, basis :: Execute(s, actor, RefereeRequestTB(team, id, basis, reason), now)
                           == Recorded(Execute(s, captain, RequestTB(id, basis), now)))
      && (forall id, accept :: Execute(s, actor, RefereeRespondTBRequest(team, id, accept, reason), now)
                            == Recorded(Execute(s, captain, RespondTBRequest(id, accept), now)))
  {
    hide Direct, Execute, ValidateState;
    if GivesReason(actor, team, reason) {
      forall command | IsProxy(command) && command.actingTeam == team && command.reason == reason {
        PassedOn(s, actor, command, now);
      }
    } else {
      forall command | IsProxy(command) && command.actingTeam == team && command.reason == reason
        ensures Execute(s, actor, command, now).None?
      {
        NotPassedOn(s, actor, command, now);
      }
    }
  }

  lemma NotPassedOn(s: State, actor: Actor, command: Command, now: Time)
    requires IsProxy(command) && !GivesReason(actor, command.actingTeam, command.reason)
    ensures Execute(s, actor, command, now).None?
  {
    hide Direct;
  }

  lemma PassedOn(s: State, actor: Actor, command: Command, now: Time)
    requires ValidateState(s) && IsProxy(command) && GivesReason(actor, command.actingTeam, command.reason)
    ensures Execute(s, actor, command, now) ==
              Recorded(Execute(s, if IsStrategistProxy(command) then StrategistActor(command.actingTeam) else CaptainActor(command.actingTeam),
                               Underlying(command), ActingTime(s, command, now)))
  {
    hide Direct, ValidateState, Sane;
    ValidIsSane(s);
    ProxyTimes(s, command, now);
    var acting := if IsStrategistProxy(command) then StrategistActor(command.actingTeam) else CaptainActor(command.actingTeam);
    ProxiedIsExecuted(s, acting, Underlying(command), ActingTime(s, command, now));
  }
}
