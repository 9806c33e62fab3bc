/** Execute and ValidateState agree: from a valid state, the result of an accepted
    command passes the recovery checker exactly when the step is not one of a short
    list. Each entry of the list is a guard a caller can evaluate before the call. */
module GateExactness {
  import opened MatchModel
  import opened BoardRules
  import opened Rules
  import opened Validation
  import Sets

  /** The accepted steps whose result the store refuses to commit. */
  predicate Breaks(s: State, command: Command) {
    match Underlying(command)
    case PlacePiece(_, _, _) => s.pendingTB.Some?
    case AbortMatch(_) => s.phase == WaitingForResult
    case RecordSurrender(_, _, _) => s.phase == WaitingForResult
    case CalibrateTimer(remaining, _) => if s.timer.paused then remaining > s.timer.duration else remaining == 0
    case ResumeTimer(_) => s.timer.remainingAtPause == 0
    case ResumeMatch(_) =>
      s.suspension.Some? && s.suspension.value.hadTimer && !s.suspension.value.timerWasPaused
      && s.timer.remainingAtPause == 0
    case _ => false
  }

  function At(s: State, version: nat): State { s.(version := version) }

  // ----- the pool and the board under each update

  lemma SlotUpdateKeepsPool(pool: Pool, id: Id, state: SlotState)
    requires ValidPool(pool) && id in pool && pool[id].mod != TB
    requires state == Selected || (state == Banned && pool[id].mod != Shiro)
    ensures ValidPool(pool[id := pool[id].(state := state)])
  {
    var pool' := pool[id := pool[id].(state := state)];
    assert SlotsOf(pool', Shiro) == SlotsOf(pool, Shiro);
    assert SlotsOf(pool', TB) == SlotsOf(pool, TB);
  }

  lemma BanKeepsBoard(pool: Pool, b: Board, id: Id)
    requires ValidBoard(pool, b) && id in pool && pool[id].state == Available
    ensures ValidBoard(pool[id := pool[id].(state := Banned)], b)
  {}

  lemma FreshIdStaysUnique(b: Board, c: Cell, p: Piece)
    requires UniqueIds(b) && c !in b && !HasPiece(b, p.id)
    ensures UniqueIds(b[c := p])
  {}

  lemma FreshSourceStaysUnique(b: Board, c: Cell, p: Piece)
    requires UniqueSources(b) && c !in b && !HasPieceFrom(b, p.source)
    ensures UniqueSources(b[c := p])
  {}

  lemma PlacementKeepsBoard(pool: Pool, b: Board, c: Cell, p: Piece)
    requires ValidPool(pool) && ValidBoard(pool, b)
    requires Empty(b, c) && FreshPieceId(b, p.id) && ValidPiece(c, p)
    requires p.source in pool && pool[p.source].state == Available && pool[p.source].mod == p.mod
    requires p.outcome == WaitingResult ==> NoneWaiting(b)
    ensures ValidBoard(pool[p.source := pool[p.source].(state := Selected)], b[c := p])
  {
    var pool', b' := pool[p.source := pool[p.source].(state := Selected)], b[c := p];
    FreshIdStaysUnique(b, c, p);
    FreshSourceStaysUnique(b, c, p);
    forall c' | c' in b' ensures ValidPiece(c', b'[c']) && FromSelectedSlot(pool', b'[c']) {}
    assert forall c' :: Waiting(b', c') ==> Waiting(b, c') || c' == c;
    forall id | id in pool' && pool'[id].state == Selected
      ensures HasPieceFrom(b', id)
    {
      if id == p.source {
        assert b'[c].source == id;
      } else {
        var c' :| c' in b && b[c'].source == id;
        assert b'[c'].source == id;
      }
    }
  }

  /** Only owners and outcomes change, and no piece starts waiting. */
  ghost predicate Relabelled(b: Board, b': Board) {
    && b'.Keys == b.Keys
    && (forall c | c in b :: b'[c] == b[c].(owner := b'[c].owner, outcome := b'[c].outcome)
                             && ValidOutcome(b'[c]) && (Waiting(b', c) ==> Waiting(b, c)))
  }

  lemma RelabellingKeepsBoard(pool: Pool, b: Board, b': Board)
    requires ValidBoard(pool, b) && Relabelled(b, b')
    ensures ValidBoard(pool, b')
  {
    forall id | id in pool && pool[id].state == Selected
      ensures HasPieceFrom(b', id)
    {
      var c :| c in b && b[c].source == id;
      assert b'[c].source == id;
    }
  }

  // A sacrificed piece is WON, so it keeps a valid owner when it dies.
  lemma SacrificedAreWon(b: Board, team: Team, ids: seq<Id>, n: nat, c: Cell)
    requires UniqueIds(b) && IsAlignment(b, team, ids, n) && c in b && b[c].id in ids
    ensures Held(b, team, c)
  {
    var at, d :| Line(b, team, n, at, d) && forall i | 0 <= i < n :: b[Shift(at, d, i)].id in ids;
    LineCovers(b, team, ids, n, at, d, b[c].id);
    var i :| 0 <= i < n && b[Shift(at, d, i)].id == b[c].id;
    assert Held(b, team, Shift(at, d, i));
  }

  lemma LineDistinct(b: Board, team: Team, n: nat, at: Cell, d: Dir)
    requires UniqueIds(b) && Line(b, team, n, at, d)
    ensures Distinct(LineIds(b, n, at, d))
  {}

  lemma IdsSize(ids: seq<Id>)
    requires Distinct(ids)
    ensures |Ids(ids)| == |ids|
  {
    if ids != [] {
      var front, last := ids[..|ids| - 1], ids[|ids| - 1];
      IdsSize(front);
      assert Ids(ids) == Ids(front) + {last};
      assert last !in Ids(front);
    }
  }

  // n distinct line ids inside n submitted ids are all of them.
  lemma LineCovers(b: Board, team: Team, ids: seq<Id>, n: nat, at: Cell, d: Dir, id: Id)
    requires UniqueIds(b) && Line(b, team, n, at, d) && |ids| == n && Distinct(ids)
    requires forall i | 0 <= i < n :: b[Shift(at, d, i)].id in ids
    requires id in ids
    ensures Ids(LineIds(b, n, at, d)) == Ids(ids)
    ensures exists i :: 0 <= i < n && b[Shift(at, d, i)].id == id
  {
    var mine := LineIds(b, n, at, d);
    LineDistinct(b, team, n, at, d);
    IdsSize(mine);
    IdsSize(ids);
    forall x | x in Ids(mine) ensures x in Ids(ids) {
      var i :| 0 <= i < |mine| && mine[i] == x;
      assert b[Shift(at, d, i)].id in ids;
    }
    Sets.SubsetOfSameSize(Ids(mine), Ids(ids));
    assert id in Ids(mine);
    var i :| 0 <= i < |mine| && mine[i] == id;
    assert b[Shift(at, d, i)].id == id;
  }

  lemma FlattenMembers(sets: seq<seq<Id>>, id: Id)
    requires id in Flatten(sets)
    ensures exists i :: 0 <= i < |sets| && id in sets[i]
  {}

  lemma SacrificesAreWon(b: Board, team: Team, target: Id, sets: seq<seq<Id>>, c: Cell)
    requires UniqueIds(b) && RobberyAccepted(b, team, target, sets)
    requires c in b && b[c].id in Ids(Flatten(sets))
    ensures Held(b, team, c)
  {
    FlattenMembers(sets, b[c].id);
    var i :| 0 <= i < |sets| && b[c].id in sets[i];
    SacrificedAreWon(b, team, sets[i], |sets[i]|, c);
  }

  // Sacrificing WON pieces and taking over one target only relabels.
  lemma TakeoverRelabels(b: Board, team: Team, target: Id, sacrifice: set<Id>)
    requires team.Valid() && (forall c | c in b :: ValidPiece(c, b[c]))
    requires forall c | c in b && b[c].id in sacrifice :: Held(b, team, c)
    ensures Relabelled(b, BoardAfterRobbery(b, team, target, sacrifice))
  {}

  lemma RobberyRelabels(b: Board, team: Team, target: Id, sets: seq<seq<Id>>)
    requires UniqueIds(b) && team.Valid() && RobberyAccepted(b, team, target, sets)
    requires forall c | c in b :: ValidPiece(c, b[c])
    ensures Relabelled(b, BoardAfterRobbery(b, team, target, Ids(Flatten(sets))))
  {
    forall c | c in b && b[c].id in Ids(Flatten(sets))
      ensures Held(b, team, c)
    {
      SacrificesAreWon(b, team, target, sets, c);
    }
    TakeoverRelabels(b, team, target, Ids(Flatten(sets)));
  }

  lemma ConfirmRelabels(b: Board, id: Id, team: Team)
    requires team.Valid() && forall c | c in b :: ValidPiece(c, b[c])
    ensures Relabelled(b, SetOwner(b, id, team))
  {}

  // ----- the same at the level of a whole command

  lemma BanKeeps(pool: Pool, b: Board, id: Id)
    requires ValidPool(pool) && ValidBoard(pool, b) && id in pool && Bannable(pool[id])
    ensures pool[id].id == id
    ensures var pool' := pool[id := pool[id].(state := Banned)]; ValidPool(pool') && ValidBoard(pool', b)
  {
    SlotUpdateKeepsPool(pool, id, Banned);
    BanKeepsBoard(pool, b, id);
  }

  lemma PlaceKeeps(pool: Pool, b: Board, id: Id, c: Cell, p: Piece)
    requires ValidPool(pool) && ValidBoard(pool, b) && NoneWaiting(b)
    requires id in pool && pool[id].state == Available && pool[id].mod != TB && p.source == pool[id].id
    requires p.mod == pool[id].mod
    requires Empty(b, c) && FreshPieceId(b, p.id) && p.selectedBy.Valid() && ValidForce(p) && ValidOutcome(p)
    ensures pool[id].id == id && p.id != ""
    ensures var pool', b' := pool[id := pool[id].(state := Selected)], b[c := p];
            && ValidPool(pool') && ValidBoard(pool', b')
            && (if p.outcome == WaitingResult then Awaits(b', p.id) else NoneWaiting(b'))
  {
    SlotUpdateKeepsPool(pool, id, Selected);
    PlacementKeepsBoard(pool, b, c, p);
    var b' := b[c := p];
    assert p.outcome == WaitingResult ==> Waiting(b', c);
    forall c' | Waiting(b', c') ensures c' == c && p.outcome == WaitingResult {
      assert !Waiting(b, c');
    }
  }

  lemma RobKeeps(pool: Pool, b: Board, team: Team, target: Id, sets: seq<seq<Id>>)
    requires ValidBoard(pool, b) && NoneWaiting(b) && team.Valid() && RobberyAccepted(b, team, target, sets)
    ensures var b' := BoardAfterRobbery(b, team, target, Ids(Flatten(sets)));
            ValidBoard(pool, b') && NoneWaiting(b')
  {
    RobberyRelabels(b, team, target, sets);
    RelabellingKeepsBoard(pool, b, BoardAfterRobbery(b, team, target, Ids(Flatten(sets))));
  }

  lemma ConfirmKeeps(pool: Pool, b: Board, id: Id, team: Team)
    requires ValidBoard(pool, b) && Awaits(b, id) && team.Valid()
    ensures ValidBoard(pool, SetOwner(b, id, team)) && NoneWaiting(SetOwner(b, id, team))
  {
    ConfirmRelabels(b, id, team);
    RelabellingKeepsBoard(pool, b, SetOwner(b, id, team));
  }

  lemma AwaitedWaits(b: Board, id: Id)
    requires Awaits(b, id)
    ensures !NoneWaiting(b)
  {}

  // ----- entering a pick (engine.go 928-982)

  /** A state from which enterPickOrTerminal may be called. */
  ghost predicate Enterable(s: State) {
    && ValidConfig(s.config) && ValidUsed(s.used) && ValidPool(s.pool) && ValidBoard(s.pool, s.board)
    && s.pendingPiece == "" && NoneWaiting(s.board)
    && s.lifecycle == Running && s.suspension.None? && NoTerminalData(s) && s.tbEntry.None?
    && s.turn >= FIRST_PICK_TURN && s.activeTeam == PickTeam(s.config.firstPick, s.turn)
    && (s.pendingTB.Some? ==>
          s.pendingTB.value.id != "" && s.pendingTB.value.requestedBy.Valid()
          && s.pendingTB.value.basis == CaptainAgreement && 11 <= s.turn <= 15)
  }

  lemma ForcedTBIsValid(s: State, now: Time, version: nat)
    requires Enterable(s) && TBIsForced(s) && now != 0 && version > 0
    ensures ValidateState(At(StartForcedTB(s, now).state, version))
  {
    hide PickTeam, ForcedTBRequirementsMet, TeamHasLegalRobbery, HasFour, Stalemated, ValidRosters, ValidPool,
      ValidBoard, NoneWaiting, Awaits;
  }

  lemma AdjudicationIsValid(s: State, version: nat)
    requires Enterable(s) && Stalemated(s.pool, s.board) && version > 0
    requires WonCount(s.board, Red) == WonCount(s.board, Blue)
    ensures ValidateState(At(ConcludeStalemate(s).state, version))
  {
    hide PickTeam, ForcedTBRequirementsMet, TeamHasLegalRobbery, HasFour, Stalemated, ValidRosters, ValidPool,
      ValidBoard, NoneWaiting, Awaits;
    var s' := At(ConcludeStalemate(s).state, version);
    assert ValidConfig(s'.config) && ValidUsed(s'.used) && ValidPool(s'.pool) && ValidBoard(s'.pool, s'.board);
    assert StalemateSupports(s', s'.ending.stalemate.value.redWon, s'.ending.stalemate.value.blueWon);
  }

  /** finishMatch clears everything but the evidence, so only the evidence is left to check. */
  lemma FinishIsValid(s: State, r: Result, version: nat)
    requires ValidConfig(s.config) && ValidUsed(s.used) && ValidPool(s.pool) && ValidBoard(s.pool, s.board)
    requires NoneWaiting(s.board)
    requires s.turn >= FIRST_BAN_TURN && r.winner.Valid() && version > 0
    requires ValidTBEntry(FinishMatch(s, r)) && ValidResult(FinishMatch(s, r), r)
    ensures ValidateState(At(FinishMatch(s, r), version))
  {
    hide PickTeam, ForcedTBRequirementsMet, TeamHasLegalRobbery, HasFour, Stalemated, ValidRosters, ValidPool,
      ValidBoard, NoneWaiting, Awaits;
    var s' := At(FinishMatch(s, r), version);
    assert ValidConfig(s'.config) && ValidUsed(s'.used) && ValidPool(s'.pool) && ValidBoard(s'.pool, s'.board);
    assert ValidTBEntry(s') && ValidResult(s', r);
  }

  lemma FourIsValid(s: State, team: Team, version: nat)
    requires ValidConfig(s.config) && ValidUsed(s.used) && ValidPool(s.pool) && ValidBoard(s.pool, s.board)
    requires NoneWaiting(s.board)
    requires s.turn >= FIRST_BAN_TURN && team.Valid() && version > 0 && s.tbEntry.None?
    requires HasFour(s.board, team)
    ensures ValidateState(At(FinishMatch(s, PlainResult(team, FourAlignment)), version))
  {
    hide ForcedTBRequirementsMet, HasFour, ValidConfig, ValidPool, ValidBoard, NoneWaiting, ValidateState;
    FinishIsValid(s, PlainResult(team, FourAlignment), version);
  }

  lemma CountedWinIsValid(s: State, version: nat)
    requires Enterable(s) && Stalemated(s.pool, s.board) && version > 0
    requires WonCount(s.board, Red) != WonCount(s.board, Blue)
    ensures ValidateState(At(ConcludeStalemate(s).state, version))
  {
    hide PickTeam, ForcedTBRequirementsMet, TeamHasLegalRobbery, HasFour, Stalemated, ValidRosters, ValidPool,
      ValidBoard, NoneWaiting, Awaits;
    FinishIsValid(s, ConcludeStalemate(s).state.ending.result.value, version);
  }

  lemma PickIsValid(s: State, now: Time, version: nat)
    requires Enterable(s) && s.phase == Pick && (s.turn <= 14 || s.pendingTB.None?)
    requires !TBIsForced(s) && now != 0 && version > 0
    ensures ValidateState(At(s.(timer := StartTimer(now, s.config.timers.pick)), version))
  {
    hide PickTeam, ForcedTBRequirementsMet, TeamHasLegalRobbery, HasFour, Stalemated, ValidRosters, ValidPool,
      ValidBoard, NoneWaiting, Awaits;
  }

  lemma EnterPickIsValid(s: State, now: Time, version: nat)
    requires Enterable(s) && now != 0 && version > 0
    ensures ValidateState(At(EnterPickOrTerminal(s, now).state, version))
    ensures EnterPickOrTerminal(s, now).state.lifecycle != Suspended
  {
    hide PickTeam, ForcedTBRequirementsMet, TeamHasLegalRobbery, HasFour, Stalemated, ValidRosters, ValidPool,
      ValidBoard, NoneWaiting, Awaits;
    var s1 := s.(phase := Pick, pendingTB := if s.turn > 14 then None else s.pendingTB);
    assert Enterable(s1);
    if ShouldForceTB(s1) {
      ForcedTBIsValid(s1, now, version);
    } else if !Stalemated(s1.pool, s1.board) {
      PickIsValid(s1, now, version);
    } else {
      var s2 := s1.(timer := NO_TIMER, pendingTB := None);
      if WonCount(s.board, Red) == WonCount(s.board, Blue) {
        AdjudicationIsValid(s1, version);
      } else {
        CountedWinIsValid(s1, version);
      }
    }
  }

  // ----- one lemma per command

  /** The accepted result passes the gate exactly when the step does not break it. */
  ghost predicate Exact(s: State, t: Option<Transition>, breaks: bool) {
    t.Some? ==> (ValidateState(At(t.value.state, s.version + 1)) <==> !breaks)
  }

  lemma AdvanceBanIsValid(s: State, now: Time, version: nat)
    requires ValidConfig(s.config) && ValidUsed(s.used) && ValidPool(s.pool) && ValidBoard(s.pool, s.board)
    requires s.phase == Ban && FIRST_BAN_TURN <= s.turn <= FINAL_BAN_TURN
    requires s.activeTeam == BanTeam(s.config.firstBan, s.turn)
    requires s.pendingPiece == "" && NoneWaiting(s.board)
    requires s.lifecycle == Running && s.suspension.None? && NoTerminalData(s) && s.tbEntry.None? && s.pendingTB.None?
    requires now != 0 && version > 0
    ensures ValidateState(At(AdvanceBan(s, now).state, version))
    ensures AdvanceBan(s, now).state.lifecycle != Suspended
  {
    hide PickTeam, ForcedTBRequirementsMet, TeamHasLegalRobbery, HasFour, Stalemated, ValidRosters, ValidPool,
      ValidBoard, NoneWaiting, Awaits;
    if s.turn == FINAL_BAN_TURN {
      EnterPickIsValid(s.(turn := FIRST_PICK_TURN, activeTeam := s.config.firstPick), now, version);
    } else {
      var s' := At(AdvanceBan(s, now).state, version);
      assert ValidConfig(s'.config) && ValidUsed(s'.used) && ValidPool(s'.pool) && ValidBoard(s'.pool, s'.board);
    }
  }

  lemma StartExact(s: State, actor: Actor, now: Time)
    requires ValidateState(s) && now != 0
    ensures Exact(s, DoStartMatch(s, actor, now), false)
  {
    hide PickTeam, ForcedTBRequirementsMet, TeamHasLegalRobbery, HasFour, Stalemated, ValidRosters, ValidPool,
      ValidBoard, NoneWaiting, Awaits, ValidResult, StalemateSupports;
  }

  lemma BanExact(s: State, actor: Actor, slotId: Id, now: Time)
    requires ValidateState(s) && now != 0
    ensures Exact(s, DoBan(s, actor, slotId, now), false)
  {
    hide PickTeam, ForcedTBRequirementsMet, TeamHasLegalRobbery, HasFour, Stalemated, ValidRosters, ValidPool,
      ValidBoard, NoneWaiting, Awaits, ValidResult, StalemateSupports, AdvanceBan;
    if DoBan(s, actor, slotId, now).Some? {
      BanKeeps(s.pool, s.board, slotId);
      AdvanceBanIsValid(s.(pool := s.pool[slotId := s.pool[slotId].(state := Banned)]), now, s.version + 1);
    }
  }

  lemma PlacePieceExact(s: State, actor: Actor, slotId: Id, pieceId: Id, c: Cell, now: Time)
    requires ValidateState(s) && now != 0
    ensures Exact(s, DoPlacePiece(s, actor, slotId, pieceId, c, now), s.pendingTB.Some?)
  {
    hide PickTeam, ForcedTBRequirementsMet, TeamHasLegalRobbery, HasFour, Stalemated, ValidRosters, ValidPool,
      ValidBoard, NoneWaiting, Awaits, ValidResult, StalemateSupports, Empty, FreshPieceId, StrategistMay;
    var t := DoPlacePiece(s, actor, slotId, pieceId, c, now);
    if t.Some? {
      RunningStrategist(s, actor, Pick, now);
      var slot := s.pool[slotId];
      var piece := Piece(pieceId, slot.id, slot.mod, PlacementForceMod(slot.mod, ZoneAt(c)).value, s.activeTeam, None, WaitingResult);
      PlaceKeeps(s.pool, s.board, slotId, c, piece);
    }
  }

  lemma RunningStrategist(s: State, actor: Actor, phase: Phase, now: Time)
    requires StrategistMay(s, actor, phase, now)
    ensures RunningPhase(s, phase) && s.activeTeam.Valid() && LiveTimer(s.timer, now)
  {}

  // The state in which placeShiro enters the next pick.
  ghost function ShiroPlaced(s: State, pieceId: Id, c: Cell): State
    requires exists id :: IsShiroSlot(s.pool, id)
  {
    var slot := s.pool[TheShiro(s.pool)];
    var piece := Piece(pieceId, slot.id, Shiro, None, s.activeTeam, None, White);
    s.(board := s.board[c := piece], pool := s.pool[slot.id := slot.(state := Selected)],
       turn := s.turn + 1, activeTeam := PickTeam(s.config.firstPick, s.turn + 1))
  }

  lemma ShiroEnters(s: State, pieceId: Id, c: Cell)
    requires ValidateState(s) && s.lifecycle == Running && s.phase == Pick
    requires FreshPieceId(s.board, pieceId) && Empty(s.board, c) && ShiroAvailable(s.pool)
    ensures Enterable(ShiroPlaced(s, pieceId, c))
  {
    hide PickTeam, ForcedTBRequirementsMet, TeamHasLegalRobbery, HasFour, Stalemated, ValidRosters, ValidPool,
      ValidBoard, NoneWaiting, Awaits, ValidResult, StalemateSupports, Empty, FreshPieceId;
    var slot := s.pool[TheShiro(s.pool)];
    PlaceKeeps(s.pool, s.board, TheShiro(s.pool), c, Piece(pieceId, slot.id, Shiro, None, s.activeTeam, None, White));
  }

  lemma PlaceShiroExact(s: State, actor: Actor, pieceId: Id, c: Cell, now: Time)
    requires ValidateState(s) && now != 0
    ensures Exact(s, DoPlaceShiro(s, actor, pieceId, c, now), false)
  {
    hide ValidateState, EnterPickOrTerminal, Enterable;
    if DoPlaceShiro(s, actor, pieceId, c, now).Some? {
      ShiroEnters(s, pieceId, c);
      EnterPickIsValid(ShiroPlaced(s, pieceId, c), now, s.version + 1);
    }
  }

  ghost function Robbed(s: State, target: Id, sets: seq<seq<Id>>): State {
    s.(board := BoardAfterRobbery(s.board, s.activeTeam, target, Ids(Flatten(sets))),
       used := s.used.(robbery := s.used.robbery[s.activeTeam := true]))
  }

  lemma RobberyStays(s: State, target: Id, sets: seq<seq<Id>>)
    requires ValidateState(s) && s.lifecycle == Running && s.phase == Pick
    requires RobberyAccepted(s.board, s.activeTeam, target, sets)
    ensures Enterable(Robbed(s, target, sets)) && ValidTurnAndTimer(Robbed(s, target, sets))
    ensures s.pendingTB.Some? ==> s.turn <= 14
  {
    hide PickTeam, ForcedTBRequirementsMet, TeamHasLegalRobbery, HasFour, Stalemated, ValidRosters, ValidPool,
      ValidBoard, NoneWaiting, Awaits, ValidResult, StalemateSupports, RobberyAccepted, BoardAfterRobbery;
    RobKeeps(s.pool, s.board, s.activeTeam, target, sets);
  }

  // A pick that keeps its running timer.
  lemma SamePickIsValid(s: State, version: nat)
    requires Enterable(s) && ValidTurnAndTimer(s) && s.phase == Pick && (s.pendingTB.Some? ==> s.turn <= 14)
    requires !TBIsForced(s) && version > 0
    ensures ValidateState(At(s, version))
  {
    hide PickTeam, ForcedTBRequirementsMet, TeamHasLegalRobbery, HasFour, Stalemated, ValidRosters, ValidPool,
      ValidBoard, NoneWaiting, Awaits, ValidResult, StalemateSupports;
  }

  lemma RobExact(s: State, actor: Actor, target: Id, sets: seq<seq<Id>>, now: Time)
    requires ValidateState(s) && now != 0
    ensures Exact(s, DoRob(s, actor, target, sets, now), false)
  {
    hide ValidateState, RobberyAccepted, ForcedTBRequirementsMet, ValidRosters, ValidPool, ValidBoard,
      NoneWaiting, HasFour, BoardAfterRobbery;
    if DoRob(s, actor, target, sets, now).Some? {
      var s1 := Robbed(s, target, sets);
      RobberyStays(s, target, sets);
      if HasFour(s1.board, s.activeTeam) {
        FourIsValid(s1, s.activeTeam, s.version + 1);
      } else if ShouldForceTB(s1) {
        ForcedTBIsValid(s1, now, s.version + 1);
      } else {
        SamePickIsValid(s1, s.version + 1);
      }
    }
  }

  ghost function Confirmed(s: State, pieceId: Id, team: Team): State {
    s.(board := SetOwner(s.board, pieceId, team), pendingPiece := "")
  }

  lemma ConfirmationSettles(s: State, pieceId: Id, team: Team)
    requires ValidateState(s) && RunningPhase(s, WaitingForResult) && pieceId == s.pendingPiece && team.Valid()
    ensures Enterable(Confirmed(s, pieceId, team).(turn := s.turn + 1, activeTeam := PickTeam(s.config.firstPick, s.turn + 1)))
  {
    hide PickTeam, ForcedTBRequirementsMet, TeamHasLegalRobbery, HasFour, Stalemated, ValidRosters, ValidPool,
      ValidBoard, NoneWaiting, Awaits, ValidResult, StalemateSupports, SetOwner;
    ConfirmKeeps(s.pool, s.board, pieceId, team);
  }

  lemma ConfirmResultExact(s: State, actor: Actor, pieceId: Id, team: Team, now: Time)
    requires ValidateState(s) && now != 0
    ensures Exact(s, DoConfirmResult(s, actor, pieceId, team, now), false)
  {
    hide ValidateState, EnterPickOrTerminal, ForcedTBRequirementsMet, ValidConfig, ValidPool, ValidBoard,
      NoneWaiting, HasFour, SetOwner, HasPiece, PickTeam;
    if DoConfirmResult(s, actor, pieceId, team, now).Some? {
      ConfirmationSettles(s, pieceId, team);
      var s1 := Confirmed(s, pieceId, team);
      var s2 := s1.(turn := s.turn + 1, activeTeam := PickTeam(s.config.firstPick, s.turn + 1));
      if HasFour(s1.board, team) {
        FourIsValid(s1, team, s.version + 1);
      } else {
        EnterPickIsValid(s2, now, s.version + 1);
      }
    }
  }

  lemma GrantExact(s: State, actor: Actor, reason: string, now: Time)
    requires ValidateState(s) && now != 0
    ensures Exact(s, DoGrant(s, actor, reason, now), false)
  {
    hide PickTeam, ForcedTBRequirementsMet, TeamHasLegalRobbery, HasFour, Stalemated, ValidRosters, ValidPool,
      ValidBoard, NoneWaiting, Awaits, ValidResult, StalemateSupports;
  }

  lemma CalibrateExact(s: State, actor: Actor, remaining: Duration, reason: string, now: Time)
    requires ValidateState(s) && now != 0
    ensures Exact(s, DoCalibrate(s, actor, remaining, reason, now), Breaks(s, CalibrateTimer(remaining, reason)))
  {
    hide PickTeam, ForcedTBRequirementsMet, TeamHasLegalRobbery, HasFour, Stalemated, ValidRosters, ValidPool,
      ValidBoard, NoneWaiting, Awaits, ValidResult, StalemateSupports;
  }

  lemma PauseExact(s: State, actor: Actor, reason: string, now: Time)
    requires ValidateState(s) && now != 0
    ensures Exact(s, DoPause(s, actor, reason, now), false)
  {
    hide PickTeam, ForcedTBRequirementsMet, TeamHasLegalRobbery, HasFour, Stalemated, ValidRosters, ValidPool,
      ValidBoard, NoneWaiting, Awaits, ValidResult, StalemateSupports;
  }

  lemma ResumeExact(s: State, actor: Actor, reason: string, now: Time)
    requires ValidateState(s) && now != 0
    ensures Exact(s, DoResume(s, actor, reason, now), Breaks(s, ResumeTimer(reason)))
  {
    hide PickTeam, ForcedTBRequirementsMet, TeamHasLegalRobbery, HasFour, Stalemated, ValidRosters, ValidPool,
      ValidBoard, NoneWaiting, Awaits, ValidResult, StalemateSupports;
  }

  lemma SuspendExact(s: State, actor: Actor, reason: string, now: Time)
    requires ValidateState(s) && now != 0
    ensures Exact(s, DoSuspend(s, actor, reason, now), false)
  {
    hide PickTeam, ForcedTBRequirementsMet, TeamHasLegalRobbery, HasFour, Stalemated, ValidRosters, ValidPool,
      ValidBoard, NoneWaiting, Awaits, ValidResult, StalemateSupports;
  }

  lemma ResumeMatchExact(s: State, actor: Actor, reason: string, now: Time)
    requires ValidateState(s) && now != 0
    ensures Exact(s, DoResumeMatch(s, actor, reason, now), Breaks(s, ResumeMatch(reason)))
  {
    hide PickTeam, ForcedTBRequirementsMet, TeamHasLegalRobbery, HasFour, Stalemated, ValidRosters, ValidPool,
      ValidBoard, NoneWaiting, Awaits, ValidResult, StalemateSupports;
  }

  // Suspending right after a step: the fresh timer is frozen at its full length.
  lemma FrozenIsValid(s: State, reason: string, now: Time)
    requires ValidateState(s) && s.lifecycle == Running && s.phase in {Ban, Pick, TBPreparation}
    requires !MissingReason(reason) && now != 0
    ensures ValidateState(s.(lifecycle := Suspended, timer := s.timer.PausedAt(now),
                             suspension := Some(Suspension(reason, now, true, s.timer.paused))))
  {
    hide PickTeam, ForcedTBRequirementsMet, TeamHasLegalRobbery, HasFour, Stalemated, ValidRosters, ValidPool,
      ValidBoard, NoneWaiting, Awaits, ValidResult, StalemateSupports;
  }

  ghost function Skipped(s: State, now: Time): State {
    var s1 := s.(lifecycle := Running, suspension := None);
    if s.phase == Ban then AdvanceBan(s1, now).state else AdvancePick(s1, now).state
  }

  ghost function NextPick(s: State): State {
    s.(lifecycle := Running, suspension := None, turn := s.turn + 1,
       activeTeam := PickTeam(s.config.firstPick, s.turn + 1))
  }

  lemma PickMayAdvance(s: State)
    requires ValidateState(s) && InPlay(s) && s.phase == Pick
    ensures Enterable(NextPick(s))
  {
    hide PickTeam, ForcedTBRequirementsMet, TeamHasLegalRobbery, HasFour, Stalemated, ValidRosters, ValidPool,
      ValidBoard, NoneWaiting, Awaits, ValidResult, StalemateSupports;
  }

  lemma SkippedPickIsValid(s: State, now: Time)
    requires ValidateState(s) && now != 0 && InPlay(s) && s.phase == Pick
    ensures ValidateState(At(Skipped(s, now), s.version + 1))
  {
    hide ValidateState, EnterPickOrTerminal, Enterable;
    PickMayAdvance(s);
    EnterPickIsValid(NextPick(s), now, s.version + 1);
  }

  lemma SkippedBanIsValid(s: State, now: Time)
    requires ValidateState(s) && now != 0 && InPlay(s) && s.phase == Ban
    ensures ValidateState(At(Skipped(s, now), s.version + 1))
  {
    hide PickTeam, ForcedTBRequirementsMet, TeamHasLegalRobbery, HasFour, Stalemated, ValidRosters, ValidPool,
      ValidBoard, NoneWaiting, Awaits, ValidResult, StalemateSupports, AdvanceBan;
    AdvanceBanIsValid(s.(lifecycle := Running, suspension := None), now, s.version + 1);
  }

  lemma SkippedPhase(s: State, now: Time)
    requires s.phase in {Ban, Pick}
    ensures Skipped(s, now).lifecycle == Running ==>
              Skipped(s, now).phase in {Ban, Pick, TBPreparation} && !Skipped(s, now).timer.paused
  {
    hide ForcedTBRequirementsMet, Stalemated;
  }

  lemma SkipExact(s: State, actor: Actor, reason: string, now: Time)
    requires ValidateState(s) && now != 0
    ensures Exact(s, DoSkip(s, actor, reason, now), false)
  {
    hide ValidateState, AdvanceBan, AdvancePick;
    if DoSkip(s, actor, reason, now).Some? {
      if s.phase == Ban { SkippedBanIsValid(s, now); } else { SkippedPickIsValid(s, now); }
      SkippedPhase(s, now);
      if s.lifecycle == Suspended && Skipped(s, now).lifecycle == Running {
        FrozenIsValid(At(Skipped(s, now), s.version + 1), reason, now);
      }
    }
  }

  lemma AbortExact(s: State, actor: Actor, reason: string)
    requires ValidateState(s)
    ensures Exact(s, DoAbort(s, actor, reason), s.phase == WaitingForResult)
  {
    hide PickTeam, ForcedTBRequirementsMet, TeamHasLegalRobbery, HasFour, Stalemated, ValidRosters, ValidPool,
      ValidBoard, NoneWaiting, Awaits, ValidResult, StalemateSupports;
    if s.phase == WaitingForResult { AwaitedWaits(s.board, s.pendingPiece); }
  }

  lemma RequestExact(s: State, actor: Actor, requestId: Id, basis: TBBasis)
    requires ValidateState(s)
    ensures Exact(s, DoRequestTB(s, actor, requestId, basis), false)
  {
    hide PickTeam, ForcedTBRequirementsMet, TeamHasLegalRobbery, HasFour, Stalemated, ValidRosters, ValidPool,
      ValidBoard, NoneWaiting, Awaits, ValidResult, StalemateSupports;
  }

  lemma RespondExact(s: State, actor: Actor, requestId: Id, accept: bool, now: Time)
    requires ValidateState(s) && now != 0
    ensures Exact(s, DoRespondTB(s, actor, requestId, accept, now), false)
  {
    hide PickTeam, ForcedTBRequirementsMet, TeamHasLegalRobbery, HasFour, Stalemated, ValidRosters, ValidPool,
      ValidBoard, NoneWaiting, Awaits, ValidResult, StalemateSupports;
  }

  lemma StartTBExact(s: State, actor: Actor, reason: string, now: Time)
    requires ValidateState(s)
    ensures Exact(s, DoStartTB(s, actor, reason, now), false)
  {
    hide PickTeam, ForcedTBRequirementsMet, TeamHasLegalRobbery, HasFour, Stalemated, ValidRosters, ValidPool,
      ValidBoard, NoneWaiting, Awaits, ValidResult, StalemateSupports;
  }

  lemma ConfirmTBExact(s: State, actor: Actor, team: Team)
    requires ValidateState(s)
    ensures Exact(s, DoConfirmTB(s, actor, team), false)
  {
    hide PickTeam, ForcedTBRequirementsMet, TeamHasLegalRobbery, HasFour, Stalemated, ValidRosters, ValidPool,
      ValidBoard, NoneWaiting, Awaits;
    if DoConfirmTB(s, actor, team).Some? {
      FinishIsValid(s, PlainResult(team, TBResult), s.version + 1);
    }
  }

  // The evidence stored with a surrender is accepted again by the checker.
  lemma UniqueKeepsEvidence(roster: Roster, submitted: seq<int>)
    ensures forall x :: x in Unique(submitted) <==> x in submitted
    ensures Unique(Unique(submitted)) == Unique(submitted)
  {
    hide PickTeam, ForcedTBRequirementsMet, TeamHasLegalRobbery, HasFour, Stalemated, ValidRosters, ValidPool,
      ValidBoard, NoneWaiting, Awaits;
    if submitted != [] {
      var front, last := submitted[..|submitted| - 1], submitted[|submitted| - 1];
      UniqueKeepsEvidence(roster, front);
      assert submitted == front + [last];
      if last !in Unique(front) {
        assert (Unique(front) + [last])[..|Unique(front)|] == Unique(front);
      }
    }
  }

  lemma EvidenceIsStable(roster: Roster, submitted: seq<int>)
    requires SurrenderEvidence(roster, submitted)
    ensures SurrenderEvidence(roster, Unique(submitted))
  {
    UniqueKeepsEvidence(roster, submitted);
    forall i | 0 <= i < |Unique(submitted)| ensures Rostered(roster, Unique(submitted)[i]) {
      assert Unique(submitted)[i] in submitted;
    }
  }

  lemma SurrenderExact(s: State, actor: Actor, team: Team, submitted: seq<int>, reason: string)
    requires ValidateState(s)
    ensures Exact(s, DoSurrender(s, actor, team, submitted, reason), s.phase == WaitingForResult)
  {
    hide PickTeam, ForcedTBRequirementsMet, TeamHasLegalRobbery, HasFour, Stalemated, ValidRosters, ValidPool,
      ValidBoard, NoneWaiting, Awaits, Unique, SurrenderEvidence, StalemateSupports;
    if DoSurrender(s, actor, team, submitted, reason).Some? {
      EvidenceIsStable(RosterOf(s.config.rosters, team), submitted);
      if s.phase == WaitingForResult {
        AwaitedWaits(s.board, s.pendingPiece);
      } else {
        FinishIsValid(s, Result(team.Opponent(), Surrender, Some(team), Unique(submitted), 0, 0), s.version + 1);
      }
    }
  }

  lemma DirectExact(s: State, actor: Actor, command: Command, now: Time)
    requires ValidateState(s) && now != 0 && !IsProxy(command)
    ensures Exact(s, Direct(s, actor, command, now), Breaks(s, command))
  {
    hide ValidateState, Exact, DoStartMatch, DoBan, DoPlacePiece, DoPlaceShiro, DoRob, DoGrant, DoCalibrate,
      DoPause, DoResume, DoSuspend, DoResumeMatch, DoSkip, DoAbort, DoRequestTB, DoRespondTB, DoStartTB,
      DoConfirmTB, DoSurrender, DoConfirmResult;
    match command
    case StartMatch => StartExact(s, actor, now);
    case BanPoolSlot(slotId) => BanExact(s, actor, slotId, now);
    case PlacePiece(slotId, pieceId, c) => PlacePieceExact(s, actor, slotId, pieceId, c, now);
    case PlaceShiro(pieceId, c) => PlaceShiroExact(s, actor, pieceId, c, now);
    case RobPiece(target, sets) => RobExact(s, actor, target, sets, now);
    case GrantAdditionalTime(reason) => GrantExact(s, actor, reason, now);
    case CalibrateTimer(remaining, reason) => CalibrateExact(s, actor, remaining, reason, now);
    case PauseTimer(reason) => PauseExact(s, actor, reason, now);
    case ResumeTimer(reason) => ResumeExact(s, actor, reason, now);
    case SuspendMatch(reason) => SuspendExact(s, actor, reason, now);
    case ResumeMatch(reason) => ResumeMatchExact(s, actor, reason, now);
    case SkipCurrentAction(reason) => SkipExact(s, actor, reason, now);
    case AbortMatch(reason) => AbortExact(s, actor, reason);
    case RequestTB(requestId, basis) => RequestExact(s, actor, requestId, basis);
    case RespondTBRequest(requestId, accept) => RespondExact(s, actor, requestId, accept, now);
    case StartTB(reason) => StartTBExact(s, actor, reason, now);
    case ConfirmTBResult(team) => ConfirmTBExact(s, actor, team);
    case RecordSurrender(team, submitted, reason) => SurrenderExact(s, actor, team, submitted, reason);
    case ConfirmBeatmapResult(pieceId, team) => ConfirmResultExact(s, actor, pieceId, team, now);
    case _ => NothingIsExact(s, Breaks(s, command));
  }

  lemma NothingIsExact(s: State, breaks: bool)
    ensures Exact(s, None, breaks)
  {}

  lemma PlayHasTimer(s: State)
    requires ValidateState(s) && (s.phase == Ban || s.phase == Pick)
    ensures s.timer.startedAt != 0
  {}

  // Outside BAN and PICK a strategist action is rejected whatever the time.
  lemma OutOfPhase(s: State, actor: Actor, command: Command, now: Time)
    requires s.phase != Ban && s.phase != Pick
    requires command.BanPoolSlot? || command.PlacePiece? || command.PlaceShiro? || command.RobPiece?
    ensures Direct(s, actor, command, now).None?
  {}

  // A proxied strategist action never runs at the zero time.
  lemma ProxyExact(s: State, command: Command, now: Time)
    requires ValidateState(s) && now != 0 && IsStrategistProxy(command)
    ensures Exact(s, Direct(s, StrategistActor(command.actingTeam), Underlying(command), ProxyTime(s, now)), Breaks(s, command))
  {
    hide ValidateState, StrategistMay;
    if s.phase == Ban || s.phase == Pick {
      PlayHasTimer(s);
      hide Direct;
      DirectExact(s, StrategistActor(command.actingTeam), Underlying(command), ProxyTime(s, now));
    } else {
      OutOfPhase(s, StrategistActor(command.actingTeam), Underlying(command), ProxyTime(s, now));
    }
  }

  /** From every valid state, for every actor, command and non-zero time: what Execute
      accepts, ValidateState accepts too, except exactly where Breaks says so. */
  lemma GateIsExact(s: State, actor: Actor, command: Command, now: Time)
    requires ValidateState(s) && now != 0
    ensures Execute(s, actor, command, now).Some? ==>
              (ValidateState(Execute(s, actor, command, now).value.state) <==> !Breaks(s, command))
  {
    hide ValidateState, Direct;
    assert Breaks(s, Underlying(command)) == Breaks(s, command);
    VersionOnlyGrows(s, actor, command, now);
    if IsStrategistProxy(command) {
      ProxyExact(s, command, now);
    } else if IsCaptainProxy(command) {
      DirectExact(s, CaptainActor(command.actingTeam), Underlying(command), now);
    } else {
      DirectExact(s, actor, command, now);
    }
  }

  lemma EnterPickKeepsVersion(s: State, now: Time)
    ensures EnterPickOrTerminal(s, now).state.version == s.version
  {}

  lemma PlayKeepsVersion(s: State, actor: Actor, command: Command, now: Time)
    requires command.BanPoolSlot? || command.PlacePiece? || command.PlaceShiro? || command.SkipCurrentAction?
    ensures Direct(s, actor, command, now).Some? ==> Direct(s, actor, command, now).value.state.version == s.version
  {
    hide EnterPickOrTerminal, StrategistMay, FreshPieceId, PlacementForceMod, MissingReason, PickTeam, ShiroAvailable;
    var s1 := s.(lifecycle := Running, suspension := None);
    forall x: State ensures EnterPickOrTerminal(x, now).state.version == x.version { EnterPickKeepsVersion(x, now); }
  }

  lemma OtherKeepsVersion(s: State, actor: Actor, command: Command, now: Time)
    requires !IsProxy(command)
    requires !(command.BanPoolSlot? || command.PlacePiece? || command.PlaceShiro? || command.SkipCurrentAction?)
    ensures Direct(s, actor, command, now).Some? ==> Direct(s, actor, command, now).value.state.version == s.version
  {
    hide EnterPickOrTerminal, RobberyAccepted, HasFour, BoardAfterRobbery, SetOwner, HasPiece,
      SurrenderEvidence, MissingReason, PickTeam, ShouldForceTB;
    forall x: State ensures EnterPickOrTerminal(x, now).state.version == x.version { EnterPickKeepsVersion(x, now); }
  }

  lemma VersionOnlyGrows(s: State, actor: Actor, command: Command, now: Time)
    ensures Execute(s, actor, command, now).Some? ==> Execute(s, actor, command, now).value.state.version == s.version + 1
  {
    hide Direct;
    var acting := if IsStrategistProxy(command) then StrategistActor(command.actingTeam)
                  else if IsCaptainProxy(command) then CaptainActor(command.actingTeam) else actor;
    var at := if IsStrategistProxy(command) then ProxyTime(s, now) else now;
    var direct := Underlying(command);
    if direct.BanPoolSlot? || direct.PlacePiece? || direct.PlaceShiro? || direct.SkipCurrentAction? {
      PlayKeepsVersion(s, acting, direct, at);
    } else {
      OtherKeepsVersion(s, acting, direct, at);
    }
  }
}
