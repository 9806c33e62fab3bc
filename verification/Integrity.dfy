/** What the recovery checker catches (internal/matchengine/validation.go): no single part of a
    valid state can be lost, doubled or put to a value that does not go with the rest. */
module Integrity {
  import opened MatchModel
  import opened BoardRules
  import opened Rules
  import opened Validation

  /** Phase and team to move go with the rest: no other value of either passes. */
  lemma PhaseIsBound(s: State, phase: Phase, team: Team)
    requires ValidateState(s)
    ensures phase != s.phase ==> !ValidateState(s.(phase := phase))
    ensures team != s.activeTeam ==> !ValidateState(s.(activeTeam := team))
  {
    hide ValidBoard, ValidPool, ValidConfig, ValidTBEntry, ValidResult, Stalemated, WonCount, Awaits, NoneWaiting;
    AwaitedIsWaiting(s);
  }

  lemma AwaitedIsWaiting(s: State)
    ensures Awaits(s.board, s.pendingPiece) ==> !NoneWaiting(s.board)
  {}

  // ----- pieces and slots

  /** The piece would not fit its cell, its slot or the other pieces. */
  ghost predicate Misfit(b: Board, c: Cell, p: Piece)
    requires c in b
  {
    || p.source != b[c].source || p.mod != b[c].mod || p.id == "" || (exists k :: k in b && k != c && b[k].id == p.id)
    || p.selectedBy == NoTeam || (p.mod == FM <==> p.forceMod.None?) || p.forceMod == Some(OtherForce)
    || (p.outcome in {Won, Dead} && (p.owner.None? || p.owner == Some(NoTeam)))
    || (p.outcome in {WaitingResult, White} && p.owner.Some?) || (p.outcome == White && p.mod != Shiro)
    || p.outcome == OtherOutcome
    || (p.outcome == WaitingResult && exists k :: k in b && k != c && b[k].outcome == WaitingResult)
  }

  /** Pieces cannot be lost, invented or put in place of one another. */
  lemma PiecesAreBound(s: State, c: Cell, p: Piece)
    requires ValidateState(s)
    ensures c in s.board ==> !ValidateState(s.(board := s.board - {c}))
    ensures c !in s.board ==> !ValidateState(s.(board := s.board[c := p]))
    ensures c in s.board && Misfit(s.board, c, p) ==> !ValidateState(s.(board := s.board[c := p]))
  {
    hide ValidPool, ValidConfig, ValidUsed, ValidTurnAndTimer, ValidLifecycle, ValidEvidence, ValidPending;
    if c in s.board {
      LosingIsCaught(s.pool, s.board, c);
      if Misfit(s.board, c, p) { MisfitIsCaught(s.pool, s.board, c, p); }
    } else {
      InventingIsCaught(s.pool, s.board, c, p);
    }
  }

  // Two cells hold pieces of different slots.
  lemma OneCellEach(b: Board, c: Cell, k: Cell)
    requires UniqueSources(b) && c in b && k in b && c != k
    ensures b[c].source != b[k].source
  {
    assert CellFrom(b, b[c].source) == c;
  }

  lemma LosingIsCaught(pool: Pool, b: Board, c: Cell)
    requires ValidBoard(pool, b) && c in b
    ensures !ValidBoard(pool, b - {c})
  {
    var id := b[c].source;
    forall k | k in b - {c} ensures (b - {c})[k].source != id { OneCellEach(b, c, k); }
    assert !HasPieceFrom(b - {c}, id);
  }

  lemma InventingIsCaught(pool: Pool, b: Board, c: Cell, p: Piece)
    requires ValidBoard(pool, b) && c !in b
    ensures !ValidBoard(pool, b[c := p])
  {
    var b' := b[c := p];
    if FromSelectedSlot(pool, p) {
      assert HasPieceFrom(b, p.source);
      var k :| k in b && b[k].source == p.source;
      assert b'[k].source == b'[c].source;
      if UniqueSources(b') { OneCellEach(b', c, k); }
    } else {
      assert b'[c] == p;
    }
  }

  lemma MisfitIsCaught(pool: Pool, b: Board, c: Cell, p: Piece)
    requires ValidBoard(pool, b) && c in b && Misfit(b, c, p)
    ensures !ValidBoard(pool, b[c := p])
  {
    var b' := b[c := p];
    assert b'[c] == p && FromSelectedSlot(pool, b[c]);
    if p.source != b[c].source {
      SourceIsLost(pool, b, c, p);
    } else if k :| k in b && k != c && b[k].id == p.id {
      assert b'[k].id == p.id;
      if UniqueIds(b') { SameIdSameCell(b', k, c); }
    } else if k :| k in b && k != c && b[k].outcome == WaitingResult && p.outcome == WaitingResult {
      assert Waiting(b', k) && Waiting(b', c);
    }
  }

  lemma SourceIsLost(pool: Pool, b: Board, c: Cell, p: Piece)
    requires ValidBoard(pool, b) && c in b && p.source != b[c].source
    ensures !ValidBoard(pool, b[c := p])
  {
    var id, b' := b[c].source, b[c := p];
    forall k | k in b' ensures b'[k].source != id {
      if k != c { OneCellEach(b, c, k); }
    }
    assert !HasPieceFrom(b', id) && pool[id].state == Selected;
  }

  /** The slot would not fit its key, the rules of its mod or the pieces. */
  predicate Misplaced(pool: Pool, id: Id, slot: Slot)
    requires id in pool
  {
    || slot.id != id || slot.mod == OtherMod || slot.state == OtherSlotState
    || (slot.state == Selected) != (pool[id].state == Selected)
    || (slot.mod == Shiro) != (pool[id].mod == Shiro) || (slot.mod == TB) != (pool[id].mod == TB)
    || (slot.mod == Shiro && slot.state == Banned) || (slot.mod == TB && slot.state == Banned)
    || (slot.state == Selected && slot.mod != pool[id].mod)
  }

  /** A slot cannot be marked played or unplayed, change into or out of Shiro or TB, or be banned
      where that is not allowed. */
  lemma SlotsAreBound(s: State, id: Id, slot: Slot)
    requires ValidateState(s) && id in s.pool && Misplaced(s.pool, id, slot)
    ensures !ValidateState(s.(pool := s.pool[id := slot]))
  {
    hide ValidConfig, ValidUsed, ValidTurnAndTimer, ValidLifecycle, ValidEvidence, ValidPending;
    SlotIsCaught(s.pool, s.board, id, slot);
  }

  lemma SlotIsCaught(pool: Pool, b: Board, id: Id, slot: Slot)
    requires ValidPool(pool) && ValidBoard(pool, b) && id in pool && Misplaced(pool, id, slot)
    ensures !(ValidPool(pool[id := slot]) && ValidBoard(pool[id := slot], b))
  {
    var pool' := pool[id := slot];
    ModsAreCounted(pool, id, slot, Shiro);
    ModsAreCounted(pool, id, slot, TB);
    if ValidSlot(id, slot) && (pool[id].state == Selected || slot.state == Selected) { PlayedSlot(pool, b, id, slot); }
    assert pool'[id] == slot;
  }

  lemma PlayedSlot(pool: Pool, b: Board, id: Id, slot: Slot)
    requires ValidBoard(pool, b) && id in pool && (pool[id].state == Selected || slot.state == Selected)
    ensures ValidBoard(pool[id := slot], b) ==> pool[id].state == slot.state && pool[id].mod == slot.mod
  {
    var pool' := pool[id := slot];
    if ValidBoard(pool', b) {
      assert HasPieceFrom(b, id) by { assert pool[id].state == Selected || pool'[id].state == Selected; }
      var c :| c in b && b[c].source == id;
      assert FromSelectedSlot(pool, b[c]) && FromSelectedSlot(pool', b[c]);
    }
  }

  lemma ModsAreCounted(pool: Pool, id: Id, slot: Slot, mod: Mod)
    requires id in pool
    ensures |SlotsOf(pool[id := slot], mod)| == |SlotsOf(pool, mod)| <==> ((slot.mod == mod) == (pool[id].mod == mod))
  {
    var pool' := pool[id := slot];
    if slot.mod == mod && pool[id].mod != mod {
      assert SlotsOf(pool', mod) == SlotsOf(pool, mod) + {id};
    } else if slot.mod != mod && pool[id].mod == mod {
      assert SlotsOf(pool, mod) == SlotsOf(pool', mod) + {id};
    } else {
      assert SlotsOf(pool', mod) == SlotsOf(pool, mod);
    }
  }

  // ----- clocks and pending matters

  /** A phase has its timer exactly if it takes one, started at some time, with no more left than
      it lasts, and a rest only while it is paused. */
  lemma TimerIsBound(s: State, t: Timer)
    requires ValidateState(s)
    requires t.duration < 0 || t.remainingAtPause < 0 || t.remainingAtPause > t.duration
          || (t.duration != 0) != (s.phase in {Ban, Pick, WaitingForResult, TBPreparation})
          || (t.duration == 0) != (t.startedAt == 0) || (!t.paused && t.remainingAtPause != 0) || (t.paused && t.duration == 0)
    ensures !ValidateState(s.(timer := t))
  {
    hide ValidBoard, ValidPool, ValidConfig, ValidEvidence, ValidPending, ValidLifecycle, ValidTurn;
  }

  /** The awaited result, the request and the entry into the tiebreaker go with phase and turn. */
  lemma PendingIsBound(s: State, id: Id, request: Option<TBRequest>, entry: Option<TBEntry>)
    requires ValidateState(s)
    ensures id != s.pendingPiece ==> !ValidateState(s.(pendingPiece := id))
    ensures request.Some? && (!InPlay(s) || s.phase != Pick || s.turn < 11 || s.turn > 14 || request.value.id == ""
                              || request.value.requestedBy == NoTeam || request.value.basis != CaptainAgreement) ==>
              !ValidateState(s.(pendingTB := request))
    ensures InPlay(s) && entry.Some? != InTB(s) ==> !ValidateState(s.(tbEntry := entry))
  {
    hide ValidPool, ValidConfig, ValidTurnAndTimer, ValidLifecycle, TBIsForced, ValidResult, Stalemated, ValidUsed, WonCount;
    if ValidateState(s.(pendingPiece := id)) && s.phase == WaitingForResult { OneIsAwaited(s, id); }
  }

  lemma OneIsAwaited(s: State, id: Id)
    requires ValidBoard(s.pool, s.board) && Awaits(s.board, s.pendingPiece) && Awaits(s.board, id)
    ensures id == s.pendingPiece
  {
    var c :| Waiting(s.board, c) && s.board[c].id == s.pendingPiece;
    var k :| Waiting(s.board, k) && s.board[k].id == id;
    assert c == k;
  }

  // ----- how it ends

  /** Nobody else can be put down as the winner, no result of a match that is not finished, and
      no four or majority that the board does not show. */
  lemma EndIsBound(s: State, ending: Ending)
    requires ValidateState(s)
    requires (InPlay(s) && ending != NO_ENDING)
          || (s.lifecycle == Finished && (ending.winner.None? || ending.result.None? || ending.abortReason != ""
                || ending.winner.value == NoTeam || ending.result.value.winner != ending.winner.value || ending.stalemate.Some?))
          || (s.lifecycle == Finished && ending.winner.Some? && ending.result.Some? && Unearned(s, ending.winner.value, ending.result.value))
          || (s.lifecycle == Aborted && MissingReason(ending.abortReason))
    ensures !ValidateState(s.(ending := ending))
  {
    hide ValidBoard, ValidPool, ValidConfig, ValidTurnAndTimer, ValidPending, ValidUsed, Stalemated, HasFour, WonCount,
      ForcedTBRequirementsMet, SurrenderEvidence;
  }

  ghost predicate Unearned(s: State, winner: Team, result: Result) {
    match result.reason
    case FourAlignment => !HasFour(s.board, winner)
    case TBResult => s.tbEntry.None?
    case Surrender => result.surrenderingTeam.None? || result.surrenderingTeam.value.Opponent() != winner
                      || !SurrenderEvidence(RosterOf(s.config.rosters, result.surrenderingTeam.value), result.confirming)
    case StalemateWonCount =>
      || !Stalemated(s.pool, s.board) || result.redWon != WonCount(s.board, Red) || result.blueWon != WonCount(s.board, Blue)
      || result.redWon == result.blueWon || (winner == Red) != (result.redWon > result.blueWon)
    case OtherReason => true
  }

  /** Versions, suspensions and what teams have used are there exactly when they should be. */
  lemma RecordIsBound(s: State, suspension: Option<Suspension>, used: Entitlements)
    requires ValidateState(s)
    ensures s.lifecycle != Ready ==> !ValidateState(s.(version := 0))
    ensures suspension.Some? != (s.lifecycle == Suspended) ==> !ValidateState(s.(suspension := suspension))
    ensures suspension.Some? && (MissingReason(suspension.value.reason) || suspension.value.at == 0) ==>
              !ValidateState(s.(suspension := suspension))
    ensures used.robbery.Keys != {Red, Blue} || used.teamPause.Keys != {Red, Blue} ==> !ValidateState(s.(used := used))
  {
    hide ValidBoard, ValidPool, ValidConfig, ValidTurnAndTimer, ValidPending, TBIsForced, ValidResult, Stalemated, WonCount;
  }
}
