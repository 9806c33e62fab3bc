/** The recovery checker of internal/matchengine/validation.go, which the store runs on
    every state before it commits it. It is written from the checks in that file and
    shares with Rules only what the Go code shares: Analyze, forcedTBRequirementsMet,
    hasFour and validateSurrenderEvidence. */
module Validation {
  import opened MatchModel
  import opened BoardRules
  import opened Rules

  predicate ValidFlags(flags: map<Team, bool>) { flags.Keys == {Red, Blue} }

  ghost predicate ValidConfig(c: Config) {
    c.firstBan.Valid() && c.firstPick.Valid() && ValidRosters(c.rosters) && c.timers.Valid()
  }

  predicate ValidUsed(u: Entitlements) { ValidFlags(u.robbery) && ValidFlags(u.teamPause) }

  // ----- pool and board (validation.go 167-265)

  predicate ValidSlot(id: Id, slot: Slot) {
    && id != "" && slot.id == id && !slot.mod.OtherMod? && !slot.state.OtherSlotState?
    && (slot.mod == Shiro ==> slot.state != Banned)
    && (slot.mod == TB ==> slot.state == Available)
  }

  function SlotsOf(pool: Pool, mod: Mod): set<Id> { set id | id in pool && pool[id].mod == mod }

  ghost predicate ValidPool(pool: Pool) {
    && (forall id | id in pool :: ValidSlot(id, pool[id]))
    && |SlotsOf(pool, Shiro)| == 1 && |SlotsOf(pool, TB)| == 1
  }

  predicate ValidForce(p: Piece) {
    if p.mod == FM then p.forceMod.Some? && !p.forceMod.value.OtherForce? else p.forceMod.None?
  }

  predicate ValidOutcome(p: Piece) {
    match p.outcome
    case WaitingResult => p.owner.None?
    case Won => p.owner.Some? && p.owner.value.Valid()
    case Dead => p.owner.Some? && p.owner.value.Valid()
    case White => p.mod == Shiro && p.owner.None?
    case OtherOutcome => false
  }

  predicate ValidPiece(c: Cell, p: Piece) {
    OnBoard(c) && p.id != "" && p.selectedBy.Valid() && ValidForce(p) && ValidOutcome(p)
  }

  predicate FromSelectedSlot(pool: Pool, p: Piece) {
    p.source in pool && pool[p.source].state == Selected && pool[p.source].mod == p.mod
  }

  ghost predicate HasPieceFrom(b: Board, id: Id) { exists c :: c in b && b[c].source == id }

  ghost function CellFrom(b: Board, id: Id): Cell
    requires HasPieceFrom(b, id)
  {
    var c :| c in b && b[c].source == id; c
  }

  /** No slot produced two pieces. */
  ghost predicate UniqueSources(b: Board) { forall c | c in b :: CellFrom(b, b[c].source) == c }

  ghost predicate Waiting(b: Board, c: Cell) { c in b && b[c].outcome == WaitingResult }

  ghost predicate AtMostOneWaiting(b: Board) {
    forall c1, c2 :: Waiting(b, c1) && Waiting(b, c2) ==> c1 == c2
  }

  ghost predicate NoneWaiting(b: Board) { forall c :: !Waiting(b, c) }

  ghost predicate Awaits(b: Board, id: Id) { exists c :: Waiting(b, c) && b[c].id == id }

  ghost predicate ValidBoard(pool: Pool, b: Board) {
    && (forall c | c in b :: ValidPiece(c, b[c]) && FromSelectedSlot(pool, b[c]))
    && UniqueIds(b) && UniqueSources(b)
    && (forall id | id in pool && pool[id].state == Selected :: HasPieceFrom(b, id))
    && AtMostOneWaiting(b)
  }

  ghost predicate ValidPending(s: State) {
    if s.phase == WaitingForResult then
      s.pendingPiece != "" && Awaits(s.board, s.pendingPiece)
    else
      s.pendingPiece == "" && NoneWaiting(s.board)
  }

  // ----- turn and timer (validation.go 45-128)

  predicate ValidTimerShape(t: Timer) {
    && t.duration >= 0 && t.remainingAtPause >= 0
    && if t.duration == 0 then t.startedAt == 0 && !t.paused && t.remainingAtPause == 0
       else t.startedAt != 0 && if t.paused then t.remainingAtPause <= t.duration else t.remainingAtPause == 0
  }

  predicate RequiresTimer(phase: Phase) { phase in {Ban, Pick, WaitingForResult, TBPreparation} }

  predicate ValidTurn(s: State) {
    match s.phase
    case PhaseNone =>
      (match s.lifecycle
       case Ready => s.turn == READY_TURN
       case AdjudicationRequired => s.turn >= FIRST_PICK_TURN
       case Finished => s.turn >= FIRST_BAN_TURN
       case Aborted => s.turn >= FIRST_BAN_TURN
       case _ => true)
    case Ban => FIRST_BAN_TURN <= s.turn <= FINAL_BAN_TURN && s.activeTeam == BanTeam(s.config.firstBan, s.turn)
    case Pick => s.turn >= FIRST_PICK_TURN && s.activeTeam == PickTeam(s.config.firstPick, s.turn)
    case WaitingForResult => s.turn >= FIRST_PICK_TURN && s.activeTeam == PickTeam(s.config.firstPick, s.turn)
    case TBPreparation => s.turn >= FIRST_PICK_TURN
    case TBPlaying => s.turn >= FIRST_PICK_TURN
    case OtherPhase => true
  }

  predicate ValidTurnAndTimer(s: State) {
    && ValidTimerShape(s.timer) && ValidTurn(s)
    && (RequiresTimer(s.phase) <==> s.timer.duration != 0)
  }

  // ----- lifecycle (validation.go 267-348)

  predicate ValidActivePhase(s: State) {
    match s.phase
    case Ban => s.activeTeam.Valid()
    case Pick => s.activeTeam.Valid()
    case WaitingForResult => s.activeTeam.Valid()
    case TBPreparation => s.activeTeam == NoTeam
    case TBPlaying => s.activeTeam == NoTeam
    case _ => false
  }

  predicate NoTerminalData(s: State) {
    s.ending == NO_ENDING
  }

  predicate ValidReady(s: State) {
    && s.version == 0 && s.phase == PhaseNone && s.activeTeam == NoTeam && s.suspension.None?
    && NoTerminalData(s)
    && s.board == map[] && (forall id | id in s.pool :: s.pool[id].state == Available)
    && !Flag(s.used.robbery, Red) && !Flag(s.used.robbery, Blue)
    && !Flag(s.used.teamPause, Red) && !Flag(s.used.teamPause, Blue)
  }

  predicate ValidSuspended(s: State) {
    && s.suspension.Some? && NoTerminalData(s) && ValidActivePhase(s)
    && var x := s.suspension.value;
       if x.hadTimer then s.timer.paused else s.timer.duration <= 0 && !s.timer.paused && !x.timerWasPaused
  }

  predicate ValidLifecycle(s: State) {
    && (s.lifecycle != Ready ==> s.version != 0)
    && match s.lifecycle
       case Ready => ValidReady(s)
       case Running => s.suspension.None? && NoTerminalData(s) && ValidActivePhase(s)
       case Suspended => ValidSuspended(s)
       case AdjudicationRequired =>
         && s.phase == PhaseNone && s.activeTeam == NoTeam && s.ending.stalemate.Some?
         && s.ending.winner.None? && s.ending.result.None? && s.suspension.None? && s.ending.abortReason == ""
       case Finished =>
         && s.phase == PhaseNone && s.activeTeam == NoTeam && s.ending.winner.Some? && s.ending.result.Some?
         && s.ending.winner.value.Valid() && s.ending.result.value.winner == s.ending.winner.value
         && s.suspension.None? && s.ending.stalemate.None? && s.ending.abortReason == ""
       case Aborted =>
         && s.phase == PhaseNone && s.activeTeam == NoTeam && s.ending.abortReason != ""
         && s.ending.winner.None? && s.ending.result.None? && s.suspension.None? && s.ending.stalemate.None?
       case OtherLifecycle => false
  }

  // ----- evidence (validation.go 350-470)

  predicate InPlay(s: State) { s.lifecycle == Running || s.lifecycle == Suspended }

  predicate ValidPendingTB(s: State) {
    s.pendingTB.Some? ==>
      var p := s.pendingTB.value;
      && InPlay(s) && s.phase == Pick && p.id != "" && p.requestedBy.Valid() && p.basis == CaptainAgreement
      && 11 <= s.turn <= 14 && s.tbEntry.None?
  }

  predicate InTB(s: State) { s.phase == TBPreparation || s.phase == TBPlaying }

  ghost predicate ValidTBEntry(s: State) {
    if s.tbEntry.None? then
      && !(InPlay(s) && s.phase == Pick && TBIsForced(s))
      && !InTB(s)
    else
      && s.pendingTB.None?
      && s.lifecycle != Ready && s.lifecycle != Lifecycle.AdjudicationRequired && (InPlay(s) ==> InTB(s))
      && var e := s.tbEntry.value;
         match e.basis
         case CaptainAgreement => e.requestId != "" && e.requestedBy.Valid() && 11 <= s.turn <= 14
         case ForcedAfterRobberyChecks => e.requestId == "" && e.requestedBy == NoTeam && TBIsForced(s)
         case OtherBasis => false
  }

  ghost predicate StalemateSupports(s: State, red: int, blue: int) {
    Stalemated(s.pool, s.board) && WonCount(s.board, Red) == red && WonCount(s.board, Blue) == blue
  }

  predicate NoSurrender(r: Result) { r.surrenderingTeam.None? && r.confirming == [] }

  ghost predicate ValidResult(s: State, r: Result) {
    match r.reason
    case FourAlignment =>
      NoSurrender(r) && r.redWon == 0 && r.blueWon == 0 && s.tbEntry.None? && HasFour(s.board, r.winner)
    case TBResult =>
      NoSurrender(r) && r.redWon == 0 && r.blueWon == 0 && s.tbEntry.Some?
    case Surrender =>
      && r.redWon == 0 && r.blueWon == 0
      && r.surrenderingTeam.Some? && r.surrenderingTeam.value.Valid()
      && r.surrenderingTeam.value.Opponent() == r.winner
      && SurrenderEvidence(RosterOf(s.config.rosters, r.surrenderingTeam.value), r.confirming)
    case StalemateWonCount =>
      && NoSurrender(r) && s.tbEntry.None?
      && r.redWon >= 0 && r.blueWon >= 0 && r.redWon != r.blueWon
      && (r.redWon > r.blueWon <==> r.winner == Red)
      && StalemateSupports(s, r.redWon, r.blueWon)
    case OtherReason => false
  }

  ghost predicate ValidEvidence(s: State) {
    && ValidPendingTB(s) && ValidTBEntry(s)
    && (s.suspension.Some? ==> !MissingReason(s.suspension.value.reason) && s.suspension.value.at != 0)
    && (s.lifecycle == Aborted ==> !MissingReason(s.ending.abortReason))
    && (s.lifecycle == Lifecycle.AdjudicationRequired && s.ending.stalemate.Some? ==>
          && s.ending.stalemate.value.redWon == s.ending.stalemate.value.blueWon && s.ending.stalemate.value.redWon >= 0
          && StalemateSupports(s, s.ending.stalemate.value.redWon, s.ending.stalemate.value.blueWon))
    && (s.lifecycle == Finished && s.ending.result.Some? ==> ValidResult(s, s.ending.result.value))
  }

  /** ValidateState (validation.go 11-43). */
  ghost predicate ValidateState(s: State) {
    && s.phase != OtherPhase
    && ValidConfig(s.config) && ValidUsed(s.used)
    && ValidPool(s.pool) && ValidBoard(s.pool, s.board) && ValidPending(s)
    && ValidTurnAndTimer(s) && ValidLifecycle(s) && ValidEvidence(s)
  }
}
