/** The net effect of one accepted command, command by command: what it does to the
    board, the pool, the turn and the phase, without the details of timers and events.
    Every statement about whole runs starts from these facts. */
module Effects {
  import opened MatchModel
  import opened BoardRules
  import opened Rules
  import opened Validation

  predicate Still(s: State, s': State) { s'.board == s.board && s'.pool == s.pool && s'.used.robbery == s.used.robbery }

  predicate Terminal(s: State) { s.lifecycle in {Lifecycle.AdjudicationRequired, Finished, Aborted} }

  predicate FinishedBy(s: State, reason: ResultReason) {
    s.lifecycle == Finished && s.ending.result.Some? && s.ending.result.value.reason == reason
    && s.ending.winner == Some(s.ending.result.value.winner)
  }

  /** What enterPickOrTerminal leaves: an open pick, a forced TB, or a decided stalemate. */
  ghost predicate Entered(s: State) {
    || (InPlay(s) && s.phase == Pick && !Stalemated(s.pool, s.board))
    || (InPlay(s) && s.phase == TBPreparation)
    || ((s.lifecycle == Lifecycle.AdjudicationRequired || FinishedBy(s, StalemateWonCount)) && s.phase == PhaseNone)
  }

  /** The turn moves on from a ban: to the next ban, or to the first pick. */
  ghost predicate BanMoves(s: State, s': State) {
    if s.turn + 1 > FINAL_BAN_TURN then s'.turn == FIRST_PICK_TURN && Entered(s')
    else s'.turn == s.turn + 1 && s'.phase == Ban && InPlay(s')
  }

  ghost predicate PickMoves(s: State, s': State) { s'.turn == s.turn + 1 && Entered(s') }

  function Selects(pool: Pool, id: Id): Pool
    requires id in pool
  {
    pool[id := pool[id].(state := Selected)]
  }

  ghost predicate NetEffect(s: State, s': State, command: Command) {
    && s'.config == s.config
    && match Underlying(command)
       case StartMatch =>
         s.lifecycle == Ready && Still(s, s') && InPlay(s') && s'.phase == Ban && s'.turn == FIRST_BAN_TURN
       case BanPoolSlot(id) =>
         && InPlay(s) && s.phase == Ban && id in s.pool && s.pool[id].state == Available && s.pool[id].mod !in {Shiro, TB}
         && s'.board == s.board && s'.used.robbery == s.used.robbery
         && s'.pool == s.pool[id := s.pool[id].(state := Banned)] && BanMoves(s, s')
       case PlacePiece(id, pieceId, c) =>
         && InPlay(s) && s.phase == Pick && id in s.pool && s.pool[id].state == Available && MayLie(s.pool[id].mod, c)
         && Empty(s.board, c)
         && s'.pool == Selects(s.pool, id) && s'.used.robbery == s.used.robbery
         && c in s'.board && s'.board == s.board[c := s'.board[c]] && s'.board[c].outcome == WaitingResult
         && InPlay(s') && s'.phase == WaitingForResult && s'.turn == s.turn
       case PlaceShiro(pieceId, c) =>
         && InPlay(s) && s.phase == Pick && Empty(s.board, c) && ShiroAvailable(s.pool)
         && s'.pool == Selects(s.pool, TheShiro(s.pool)) && s'.used.robbery == s.used.robbery
         && c in s'.board && s'.board == s.board[c := s'.board[c]] && s'.board[c].outcome == White
         && PickMoves(s, s')
       case RobPiece(target, sets) =>
         && InPlay(s) && s.phase == Pick && s.activeTeam.Valid()
         && RobberyAccepted(s.board, s.activeTeam, target, sets)
         && s'.pool == s.pool && s'.board == BoardAfterRobbery(s.board, s.activeTeam, target, Ids(Flatten(sets)))
         && s'.turn == s.turn
         && if HasFour(s'.board, s.activeTeam) then
              FinishedBy(s', FourAlignment) && s'.ending.winner == Some(s.activeTeam) && s'.phase == PhaseNone
            else InPlay(s') && (s'.phase == Pick || s'.phase == TBPreparation)
       case ConfirmBeatmapResult(pieceId, team) =>
         && InPlay(s) && s.phase == WaitingForResult && pieceId == s.pendingPiece && team.Valid()
         && s'.pool == s.pool && s'.board == SetOwner(s.board, pieceId, team) && s'.used.robbery == s.used.robbery
         && if HasFour(s'.board, team) then
              FinishedBy(s', FourAlignment) && s'.ending.winner == Some(team) && s'.phase == PhaseNone && s'.turn == s.turn
            else PickMoves(s, s')
       case SkipCurrentAction(_) =>
         && InPlay(s) && Still(s, s') && if s.phase == Ban then BanMoves(s, s') else s.phase == Pick && PickMoves(s, s')
       case _ =>
         && InPlay(s) && Still(s, s') && s'.turn == s.turn
         && (|| (InPlay(s') && (s'.phase == s.phase || (InTB(s') && s.phase in {Pick, TBPreparation})))
             || (Terminal(s') && s'.phase == PhaseNone && !FinishedBy(s', FourAlignment)
                 && !FinishedBy(s', StalemateWonCount) && s'.lifecycle != Lifecycle.AdjudicationRequired))
  }

  // ----- proofs, in the order the functions are built

  lemma EnterPickEnters(s: State, now: Time)
    requires s.lifecycle == Running
    ensures var s' := EnterPickOrTerminal(s, now).state;
            Entered(s') && Still(s, s') && s'.turn == s.turn && s'.config == s.config && s'.lifecycle != Suspended
            && (s'.lifecycle == Running || Terminal(s'))
  {
    hide ForcedTBRequirementsMet, Stalemated, WonCount;
  }

  lemma AdvanceBanMoves(s: State, now: Time)
    requires s.lifecycle == Running && s.phase == Ban
    ensures var s' := AdvanceBan(s, now).state;
            BanMoves(s, s') && Still(s, s') && s'.config == s.config && (s'.lifecycle == Running || Terminal(s'))
  {
    hide EnterPickOrTerminal, Stalemated;
    EnterPickEnters(s.(turn := FIRST_PICK_TURN, activeTeam := s.config.firstPick), now);
  }

  lemma AdvancePickMoves(s: State, now: Time)
    requires s.lifecycle == Running
    ensures var s' := AdvancePick(s, now).state;
            PickMoves(s, s') && Still(s, s') && s'.config == s.config && (s'.lifecycle == Running || Terminal(s'))
  {
    hide EnterPickOrTerminal, Stalemated, PickTeam;
    EnterPickEnters(s.(turn := s.turn + 1, activeTeam := PickTeam(s.config.firstPick, s.turn + 1)), now);
  }

  ghost predicate Shows(s: State, t: Option<Transition>, command: Command) {
    t.Some? ==> NetEffect(s, t.value.state, command)
  }

  lemma SkipShows(s: State, actor: Actor, reason: string, now: Time)
    ensures Shows(s, DoSkip(s, actor, reason, now), SkipCurrentAction(reason))
  {
    hide AdvanceBan, AdvancePick, Stalemated, MissingReason;
    var s1 := s.(lifecycle := Running, suspension := None);
    if s.phase == Ban { AdvanceBanMoves(s1, now); } else { AdvancePickMoves(s1, now); }
  }

  lemma BanShows(s: State, actor: Actor, id: Id, now: Time)
    requires ValidPool(s.pool)
    ensures Shows(s, DoBan(s, actor, id, now), BanPoolSlot(id))
  {
    hide AdvanceBan, Stalemated, LiveTimer;
    if DoBan(s, actor, id, now).Some? {
      AdvanceBanMoves(s.(pool := s.pool[id := s.pool[id].(state := Banned)]), now);
    }
  }

  lemma PlaceShows(s: State, actor: Actor, id: Id, pieceId: Id, c: Cell, now: Time)
    requires ValidPool(s.pool)
    ensures Shows(s, DoPlacePiece(s, actor, id, pieceId, c, now), PlacePiece(id, pieceId, c))
  {
    hide LiveTimer, FreshPieceId;
  }

  lemma ShiroShows(s: State, actor: Actor, pieceId: Id, c: Cell, now: Time)
    requires ValidPool(s.pool)
    ensures Shows(s, DoPlaceShiro(s, actor, pieceId, c, now), PlaceShiro(pieceId, c))
  {
    hide AdvancePick, Stalemated, LiveTimer, FreshPieceId;
    if DoPlaceShiro(s, actor, pieceId, c, now).Some? {
      var slot := s.pool[TheShiro(s.pool)];
      var piece := Piece(pieceId, slot.id, Shiro, None, s.activeTeam, None, White);
      AdvancePickMoves(s.(board := s.board[c := piece], pool := s.pool[slot.id := slot.(state := Selected)]), now);
    }
  }

  lemma RobShows(s: State, actor: Actor, target: Id, sets: seq<seq<Id>>, now: Time)
    ensures Shows(s, DoRob(s, actor, target, sets, now), RobPiece(target, sets))
  {
    hide LiveTimer, RobberyAccepted, BoardAfterRobbery, HasFour, ForcedTBRequirementsMet;
  }

  lemma ConfirmShows(s: State, actor: Actor, pieceId: Id, team: Team, now: Time)
    ensures Shows(s, DoConfirmResult(s, actor, pieceId, team, now), ConfirmBeatmapResult(pieceId, team))
  {
    hide AdvancePick, Stalemated, SetOwner, HasFour, HasPiece;
    if DoConfirmResult(s, actor, pieceId, team, now).Some? {
      AdvancePickMoves(s.(board := SetOwner(s.board, pieceId, team), pendingPiece := ""), now);
    }
  }

  lemma OtherShows(s: State, actor: Actor, command: Command, now: Time)
    requires !IsProxy(command) && ValidateState(s)
    requires !(command.BanPoolSlot? || command.PlacePiece? || command.PlaceShiro? || command.RobPiece?
               || command.SkipCurrentAction? || command.ConfirmBeatmapResult?)
    ensures Shows(s, Direct(s, actor, command, now), command)
  {
    hide ValidConfig, ValidPool, ValidBoard, ValidPending, ValidTurnAndTimer, ValidEvidence, SurrenderEvidence,
      MissingReason, PickTeam, Unique, DoBan, DoPlacePiece, DoPlaceShiro, DoRob, DoSkip, DoConfirmResult;
  }

  lemma DirectShows(s: State, actor: Actor, command: Command, now: Time)
    requires !IsProxy(command) && ValidateState(s)
    ensures Shows(s, Direct(s, actor, command, now), command)
  {
    hide ValidateState, Shows, DoStartMatch, DoBan, DoPlacePiece, DoPlaceShiro, DoRob, DoGrant, DoCalibrate,
      DoPause, DoResume, DoSuspend, DoResumeMatch, DoSkip, DoAbort, DoRequestTB, DoRespondTB, DoStartTB,
      DoConfirmTB, DoSurrender, DoConfirmResult;
    PoolOfValid(s);
    match command
    case BanPoolSlot(id) => BanShows(s, actor, id, now);
    case PlacePiece(id, pieceId, c) => PlaceShows(s, actor, id, pieceId, c, now);
    case PlaceShiro(pieceId, c) => ShiroShows(s, actor, pieceId, c, now);
    case RobPiece(target, sets) => RobShows(s, actor, target, sets, now);
    case SkipCurrentAction(reason) => SkipShows(s, actor, reason, now);
    case ConfirmBeatmapResult(pieceId, team) => ConfirmShows(s, actor, pieceId, team, now);
    case _ => OtherShows(s, actor, command, now);
  }

  lemma PoolOfValid(s: State)
    requires ValidateState(s)
    ensures ValidPool(s.pool)
  {}

  // The outcome does not mention the version, which Execute bumps.
  lemma EffectIgnoresVersion(s: State, s': State, command: Command, version: nat)
    requires NetEffect(s, s', command)
    ensures NetEffect(s, s'.(version := version), command)
  {
    hide Stalemated, HasFour, RobberyAccepted, BoardAfterRobbery, SetOwner, ShiroAvailable, TheShiro, Empty;
  }

  /** Every command Execute accepts from a valid state has the listed effect. */
  lemma ExecuteShows(s: State, actor: Actor, command: Command, now: Time)
    requires ValidateState(s) && Execute(s, actor, command, now).Some?
    ensures NetEffect(s, Execute(s, actor, command, now).value.state, command)
  {
    hide ValidateState, Direct, NetEffect;
    var t := Apply(s, actor, command, now).value.state;
    if IsStrategistProxy(command) {
      DirectShows(s, StrategistActor(command.actingTeam), Underlying(command), ProxyTime(s, now));
    } else if IsCaptainProxy(command) {
      DirectShows(s, CaptainActor(command.actingTeam), Underlying(command), now);
    } else {
      DirectShows(s, actor, command, now);
    }
    ProxyEffect(s, t, command);
    EffectIgnoresVersion(s, t, command, t.version + 1);
  }

  lemma ProxyEffect(s: State, s': State, command: Command)
    ensures NetEffect(s, s', Underlying(command)) <==> NetEffect(s, s', command)
  {
    hide Stalemated, HasFour, RobberyAccepted, BoardAfterRobbery, SetOwner, ShiroAvailable, TheShiro, Empty;
  }
}
