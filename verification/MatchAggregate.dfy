/** The aggregate of internal/matchengine/model.go and the handlers of engine.go, which update
    it field by field and in place. Every handler is proved against Rules: it accepts exactly
    when its rule has a transition, leaves exactly that transition's state, emits exactly its
    events, and on rejection changes nothing. */
module MatchAggregate {
  import opened MatchModel
  import opened BoardRules
  import opened PlayingBoards
  import opened Rules
  import opened RobberySearch
  import opened Analyses
  import G = GateExactness

  /** Slots sit under their own id, and a map iteration can meet one Shiro slot only. */
  ghost predicate Keyed(pool: Pool) {
    && (forall id | id in pool :: pool[id].id == id)
    && (forall x, y :: IsShiroSlot(pool, x) && IsShiroSlot(pool, y) ==> x == y)
  }

  type Emitted = Option<seq<EventType>>

  /** The rule's transition happened, or the rejection left the state alone. */
  ghost predicate Followed(rule: Option<Transition>, before: State, after: State, events: Emitted) {
    if rule.None? then events.None? && after == before
    else events == Some(rule.value.events) && after == rule.value.state
  }

  class Match {
    var version: nat
    var lifecycle: Lifecycle
    var phase: Phase
    var turn: int
    var activeTeam: Team
    const config: Config
    var pool: Pool
    var board: PlayingBoard
    var timer: Timer
    var used: Entitlements
    var pendingPiece: Id
    var pendingTB: Option<TBRequest>
    var tbEntry: Option<TBEntry>
    var suspension: Option<Suspension>
    var ending: Ending

    function Snapshot(): State
      reads this, board
    {
      State(version, lifecycle, phase, turn, activeTeam, config, pool, board.pieces, timer,
            used, pendingPiece, pendingTB, tbEntry, suspension, ending)
    }

    ghost predicate Valid()
      reads this, board
    {
      UniqueIds(board.pieces) && Keyed(pool)
    }

    constructor (s: State)
      ensures Snapshot() == s && fresh(board)
    {
      version, lifecycle, phase, turn, activeTeam, config := s.version, s.lifecycle, s.phase, s.turn, s.activeTeam, s.config;
      pool, timer, used, ending := s.pool, s.timer, s.used, s.ending;
      pendingPiece, pendingTB, tbEntry, suspension := s.pendingPiece, s.pendingTB, s.tbEntry, s.suspension;
      board := new PlayingBoard(s.board);
    }

    // ----- terminal evaluation (engine.go 878-995)

    /** Ends the current action: nothing runs and nobody is to move. */
    method StopPlay(lifecycle: Lifecycle)
      modifies this
      ensures board == old(board) && pool == old(pool)
      ensures Snapshot() == old(Snapshot()).(lifecycle := lifecycle, phase := PhaseNone, activeTeam := NoTeam, timer := NO_TIMER)
    {
      this.lifecycle := lifecycle;
      phase := PhaseNone;
      activeTeam := NoTeam;
      timer := NO_TIMER;
    }

    method ClearPending()
      modifies this
      ensures board == old(board) && pool == old(pool)
      ensures Snapshot() == old(Snapshot()).(pendingPiece := "", pendingTB := None, suspension := None)
    {
      pendingPiece := "";
      pendingTB := None;
      suspension := None;
    }

    method FinishMatch(result: Result)
      modifies this
      ensures board == old(board) && pool == old(pool)
      ensures Snapshot() == Rules.FinishMatch(old(Snapshot()), result)
    {
      ending := Ending(Some(result.winner), Some(result), None, "");
      StopPlay(Finished);
      ClearPending();
    }

    method ForcedTBMet() returns (met: bool)
      requires Valid()
      ensures met <==> TBIsForced(Snapshot())
    {
      hide HasFour, TeamHasLegalRobbery, UniqueIds;
      if turn < 15 { return false; }
      var redFour := board.FourAligned(Red);
      if redFour { return false; }
      var blueFour := board.FourAligned(Blue);
      if blueFour { return false; }
      var redSatisfied := Flag(used.robbery, Red);
      if !redSatisfied {
        var canRob := CanRob(board, Red);
        redSatisfied := !canRob;
      }
      var blueSatisfied := Flag(used.robbery, Blue);
      if !blueSatisfied {
        var canRob := CanRob(board, Blue);
        blueSatisfied := !canRob;
      }
      met := redSatisfied && blueSatisfied;
    }

    method ForceTB(now: Time) returns (events: seq<EventType>)
      modifies this
      ensures board == old(board) && pool == old(pool)
      ensures Transition(Snapshot(), events) == StartForcedTB(old(Snapshot()), now)
    {
      phase, activeTeam, pendingTB := TBPreparation, NoTeam, None;
      tbEntry := Some(TBEntry(ForcedAfterRobberyChecks, "", NoTeam));
      timer := StartTimer(now, config.timers.tbPreparation);
      events := [TBForced, TBPreparationStarted, TimerStarted];
    }

    /** A TB request does not outlive turn 14. */
    method ExpireRequest() returns (events: seq<EventType>)
      modifies this
      ensures board == old(board) && pool == old(pool)
      ensures Snapshot() == old(Snapshot()).(pendingTB := if old(turn) > 14 then None else old(pendingTB))
      ensures events == if old(turn) > 14 && old(pendingTB).Some? then [TBRequestExpired] else []
    {
      if turn > 14 && pendingTB.Some? {
        pendingTB := None;
        return [TBRequestExpired];
      }
      return [];
    }

    /** The end of a match nobody can move in. */
    method Conclude(redWon: nat, blueWon: nat) returns (events: seq<EventType>)
      requires redWon == WonCount(board.pieces, Red) && blueWon == WonCount(board.pieces, Blue)
      modifies this
      ensures board == old(board) && pool == old(pool)
      ensures Transition(Snapshot(), events) == ConcludeStalemate(old(Snapshot()))
    {
      hide WonCount;
      timer := NO_TIMER;
      pendingTB := None;
      if redWon == blueWon {
        StopPlay(Lifecycle.AdjudicationRequired);
        ending := ending.(stalemate := Some(StalemateEvidence(redWon, blueWon)));
        return [StalemateDetected, AdjudicationRaised];
      }
      var won := if blueWon > redWon then Blue else Red;
      FinishMatch(Result(won, StalemateWonCount, None, [], redWon, blueWon));
      return [StalemateDetected, MatchFinished];
    }

    method OpenPick(now: Time) returns (events: seq<EventType>)
      requires Valid()
      modifies this
      ensures board == old(board) && pool == old(pool)
      ensures Transition(Snapshot(), events)
           == if !Stalemated(old(pool), old(board.pieces)) then
                Transition(old(Snapshot()).(timer := StartTimer(now, config.timers.pick)), [TimerStarted])
              else ConcludeStalemate(old(Snapshot()))
    {
      hide Stalemated, WonCount, UniqueIds, Keyed, ConcludeStalemate;
      var analysis := Analyze(pool, board);
      if analysis.stalemate {
        events := Conclude(analysis.redWon, analysis.blueWon);
      } else {
        timer := StartTimer(now, config.timers.pick);
        events := [TimerStarted];
      }
    }

    method EnterPick(now: Time) returns (events: seq<EventType>)
      requires Valid()
      modifies this
      ensures board == old(board) && pool == old(pool)
      ensures Transition(Snapshot(), events) == EnterPickOrTerminal(old(Snapshot()), now)
    {
      hide Stalemated, ForcedTBRequirementsMet, WonCount, UniqueIds, Keyed, ConcludeStalemate, StartForcedTB;
      phase := Pick;
      events := ExpireRequest();
      var forced := false;
      if lifecycle == Running { forced := ForcedTBMet(); }
      if forced {
        var more := ForceTB(now);
        events := events + more;
      } else {
        var more := OpenPick(now);
        events := events + more;
      }
    }

    // ----- bans and placements (engine.go 81-276)

    method HandleStartMatch(actor: Actor, now: Time) returns (events: Emitted)
      modifies this
      ensures board == old(board) && pool == old(pool)
      ensures Followed(DoStartMatch(old(Snapshot()), actor, now), old(Snapshot()), Snapshot(), events)
    {
      if actor.capability != Referee && !actor.adminOverride { return None; }
      if lifecycle != Ready { return None; }
      lifecycle, phase, turn, activeTeam := Running, Ban, FIRST_BAN_TURN, config.firstBan;
      timer := StartTimer(now, config.timers.ban);
      return Some([MatchStarted, BanPhaseStarted, TimerStarted]);
    }

    predicate StrategistReady(actor: Actor, wanted: Phase, now: Time)
      reads this, board
      ensures StrategistReady(actor, wanted, now) <==> StrategistMay(Snapshot(), actor, wanted, now)
    {
      && lifecycle == Running && phase == wanted
      && actor.capability == Strategist && actor.team.Some? && actor.team.value.Valid() && actor.team.value == activeTeam
      && !timer.paused && !timer.Expired(now)
    }

    /** The turn after a ban or a skipped one. */
    method MoveOnFromBan(now: Time) returns (events: seq<EventType>)
      requires Valid()
      modifies this
      ensures board == old(board) && pool == old(pool)
      ensures Transition(Snapshot(), events) == AdvanceBan(old(Snapshot()), now)
    {
      hide EnterPickOrTerminal, UniqueIds, Keyed;
      turn := turn + 1;
      if turn > FINAL_BAN_TURN {
        turn := FIRST_PICK_TURN;
        activeTeam := config.firstPick;
        var more := EnterPick(now);
        events := [TurnAdvanced, PickPhaseStarted] + more;
        return;
      }
      if turn == SECOND_BAN_TURN || turn == THIRD_BAN_TURN {
        activeTeam := config.firstBan.Opponent();
      } else if turn == FINAL_BAN_TURN {
        activeTeam := config.firstBan;
      }
      timer := StartTimer(now, config.timers.ban);
      events := [TurnAdvanced, TimerStarted];
    }

    method MoveOnFromPick(now: Time) returns (events: seq<EventType>)
      requires Valid()
      modifies this
      ensures board == old(board) && pool == old(pool)
      ensures Transition(Snapshot(), events) == AdvancePick(old(Snapshot()), now)
    {
      hide EnterPickOrTerminal, PickTeam, UniqueIds, Keyed;
      turn := turn + 1;
      activeTeam := PickTeam(config.firstPick, turn);
      var more := EnterPick(now);
      events := [TurnAdvanced] + more;
    }

    method HandleBan(actor: Actor, slotId: Id, now: Time) returns (events: Emitted)
      requires Valid()
      modifies this
      ensures Valid() && board == old(board)
      ensures Followed(DoBan(old(Snapshot()), actor, slotId, now), old(Snapshot()), Snapshot(), events)
    {
      hide AdvanceBan, UniqueIds, StrategistMay, Keyed;
      if !StrategistReady(actor, Ban, now) || slotId !in pool { return None; }
      var slot := pool[slotId];
      if slot.state != Available || slot.mod == Shiro || slot.mod == TB { return None; }
      SlotStaysKeyed(pool, slotId, Banned);
      pool := pool[slot.id := slot.(state := Banned)];
      var more := MoveOnFromBan(now);
      return Some([PoolSlotBanned] + more);
    }

    method AwaitResult(pieceId: Id, now: Time)
      modifies this
      ensures board == old(board) && pool == old(pool)
      ensures Snapshot() == old(Snapshot()).(phase := WaitingForResult, pendingPiece := pieceId,
                                             timer := StartTimer(now, config.timers.confirmation))
    {
      phase := WaitingForResult;
      pendingPiece := pieceId;
      timer := StartTimer(now, config.timers.confirmation);
    }

    method PutPiece(slot: Slot, piece: Piece, c: Cell)
      requires Valid() && slot.id in pool && pool[slot.id] == slot && c !in board.pieces
      requires !HasPiece(board.pieces, piece.id)
      modifies this, board
      ensures Valid() && board == old(board)
      ensures Snapshot() == old(Snapshot()).(board := old(board.pieces)[c := piece],
                                             pool := old(pool)[slot.id := slot.(state := Selected)])
    {
      hide UniqueIds, Keyed;
      G.FreshIdStaysUnique(board.pieces, c, piece);
      SlotStaysKeyed(pool, slot.id, Selected);
      board.Place(c, piece);
      pool := pool[slot.id := slot.(state := Selected)];
    }

    method HandlePlacePiece(actor: Actor, slotId: Id, pieceId: Id, c: Cell, now: Time) returns (events: Emitted)
      requires Valid()
      modifies this, board
      ensures Valid() && board == old(board)
      ensures Followed(DoPlacePiece(old(Snapshot()), actor, slotId, pieceId, c, now), old(Snapshot()), Snapshot(), events)
    {
      hide UniqueIds, StrategistMay, HasPiece;
      if !StrategistReady(actor, Pick, now) || pieceId == "" { return None; }
      var taken := board.ContainsPieceId(pieceId);
      if taken || slotId !in pool { return None; }
      var slot := pool[slotId];
      if slot.state != Available || slot.mod == Shiro || slot.mod == TB { return None; }
      if !board.IsEmpty(c) { return None; }
      var force := PlacementForceMod(slot.mod, ZoneAt(c));
      if force.None? { return None; }
      PutPiece(slot, Piece(pieceId, slot.id, slot.mod, force.value, activeTeam, None, WaitingResult), c);
      AwaitResult(pieceId, now);
      return Some([PiecePlaced, ResultConfirmationRequested, TimerStarted]);
    }

    method FindShiro() returns (id: Option<Id>)
      ensures id.None? <==> !exists k :: IsShiroSlot(pool, k)
      ensures id.Some? ==> IsShiroSlot(pool, id.value)
    {
      var todo := pool.Keys;
      while todo != {}
        invariant todo <= pool.Keys
        invariant forall k | k in pool && k !in todo :: pool[k].mod != Shiro
      {
        var k :| k in todo;
        if pool[k].mod == Shiro {
          assert IsShiroSlot(pool, k);
          return Some(k);
        }
        todo := todo - {k};
      }
      return None;
    }

    method HandlePlaceShiro(actor: Actor, pieceId: Id, c: Cell, now: Time) returns (events: Emitted)
      requires Valid()
      modifies this, board
      ensures Valid() && board == old(board)
      ensures Followed(DoPlaceShiro(old(Snapshot()), actor, pieceId, c, now), old(Snapshot()), Snapshot(), events)
    {
      hide UniqueIds, StrategistMay, HasPiece, AdvancePick;
      if !StrategistReady(actor, Pick, now) || pieceId == "" { return None; }
      var taken := board.ContainsPieceId(pieceId);
      if taken || !board.IsEmpty(c) { return None; }
      var shiro := FindShiro();
      if shiro.None? { return None; }
      assert TheShiro(pool) == shiro.value;
      var slot := pool[shiro.value];
      if slot.state != Available { return None; }
      PutPiece(slot, Piece(pieceId, slot.id, Shiro, None, activeTeam, None, White), c);
      var more := MoveOnFromPick(now);
      return Some([EventType.ShiroPlaced] + more);
    }

    // ----- robbery and results (engine.go 287-360, 892-926)

    /** Four in a row ends the match; otherwise the tiebreaker may be forced. */
    method SettleRobbery(team: Team, now: Time) returns (events: seq<EventType>)
      requires Valid() && team.Valid()
      modifies this
      ensures Valid() && board == old(board) && pool == old(pool)
      ensures Transition(Snapshot(), events)
           == if HasFour(old(board.pieces), team) then
                Transition(Rules.FinishMatch(old(Snapshot()), PlainResult(team, FourAlignment)), [MatchFinished])
              else if ShouldForceTB(old(Snapshot())) then StartForcedTB(old(Snapshot()), now)
              else Transition(old(Snapshot()), [])
    {
      hide UniqueIds, Keyed, HasFour, ForcedTBRequirementsMet, StartForcedTB, Rules.FinishMatch;
      var four := board.FourAligned(team);
      if four {
        FinishMatch(PlainResult(team, FourAlignment));
        return [MatchFinished];
      }
      var forced := false;
      if lifecycle == Running && phase == Pick { forced := ForcedTBMet(); }
      if forced {
        events := ForceTB(now);
      } else {
        events := [];
      }
    }

    /** RobPiece checks its target and its sets before it touches anything. */
    method CheckRobbery(team: Team, target: Id, sets: seq<seq<Id>>) returns (next: Option<PlayingBoard>)
      requires Valid()
      ensures next.Some? <==> RobberyAccepted(board.pieces, team, target, sets)
      ensures next.Some? ==> fresh(next.value)
      ensures next.Some? ==> next.value.pieces == BoardAfterRobbery(board.pieces, team, target, Ids(Flatten(sets)))
    {
      hide UniqueIds, IsAlignment, RobberyHolds, Flatten, Distinct, HasPiece, BoardAfterRobbery;
      var at := board.PieceById(target);
      if at.None? {
        NoTargetNoRobbery(board.pieces, team, target, sets);
        return None;
      }
      var piece := board.pieces[at.value];
      TargetDecides(board.pieces, team, at.value, sets);
      if !ShiroTarget(piece) && !OpponentTarget(piece, team) { return None; }
      var ids, overlap := FlattenSacrificeSets(sets);
      if overlap { return None; }
      var valid;
      if ShiroTarget(piece) {
        if |sets| != 1 { return None; }
        valid := board.IsAligned(team, sets[0], 2);
      } else {
        valid := IsNormalSacrifice(board, team, sets);
      }
      if !valid { return None; }
      var after, holds := BoardAfter(board, team, target, ids, if ShiroTarget(piece) then 2 else 3);
      if !holds { return None; }
      return Some(after);
    }

    method HandleRob(actor: Actor, target: Id, sets: seq<seq<Id>>, now: Time) returns (events: Emitted)
      requires Valid()
      modifies this, board
      ensures Valid() && (board == old(board) || fresh(board))
      ensures Followed(DoRob(old(Snapshot()), actor, target, sets, now), old(Snapshot()), Snapshot(), events)
    {
      hide UniqueIds, Keyed, StrategistMay, RobberyAccepted, HasFour, ForcedTBRequirementsMet,
        BoardAfterRobbery, StartForcedTB, Flatten, Rules.FinishMatch;
      if !StrategistReady(actor, Pick, now) { return None; }
      var team := activeTeam;
      var next := CheckRobbery(team, target, sets);
      if next.None? { return None; }
      RobberyKeepsIds(board.pieces, team, target, Ids(Flatten(sets)));
      board := next.value;
      used := used.(robbery := used.robbery[team := true]);
      var more := SettleRobbery(team, now);
      assert [PiecesSacrificed, PieceRobbed] + [] == [PiecesSacrificed, PieceRobbed];
      return Some([PiecesSacrificed, PieceRobbed] + more);
    }

    method HandleConfirmResult(actor: Actor, pieceId: Id, team: Team, now: Time) returns (events: Emitted)
      requires Valid()
      modifies this, board
      ensures Valid() && board == old(board)
      ensures Followed(DoConfirmResult(old(Snapshot()), actor, pieceId, team, now), old(Snapshot()), Snapshot(), events)
    {
      hide UniqueIds, Keyed, HasFour, HasPiece, AdvancePick, SetOwner, Rules.FinishMatch;
      if lifecycle != Running || phase != WaitingForResult || actor.capability != Referee { return None; }
      if pieceId == "" || pieceId != pendingPiece || !team.Valid() { return None; }
      RobberyKeepsIds(board.pieces, team, pieceId, {});
      NothingFound(board.pieces, pieceId, team);
      var found := board.SetOwner(pieceId, team);
      if !found { return None; }
      pendingPiece := "";
      var four := board.FourAligned(team);
      if four {
        FinishMatch(PlainResult(team, FourAlignment));
        return Some([BeatmapResultConfirmed, PieceWon] + [MatchFinished]);
      }
      var more := MoveOnFromPick(now);
      return Some([BeatmapResultConfirmed, PieceWon] + more);
    }

    // ----- the timer (engine.go 436-580)

    predicate RefereeCan(actor: Actor, reason: string) { actor.capability == Referee && !MissingReason(reason) }

    predicate TimerPresent()
      reads this
    {
      timer.duration > 0 || timer.paused
    }

    method HandleGrant(actor: Actor, reason: string, now: Time) returns (events: Emitted)
      modifies this
      ensures board == old(board) && pool == old(pool)
      ensures Followed(DoGrant(old(Snapshot()), actor, reason, now), old(Snapshot()), Snapshot(), events)
    {
      hide MissingReason;
      if lifecycle != Running || !RefereeCan(actor, reason) { return None; }
      if phase != Ban && phase != Pick && phase != WaitingForResult { return None; }
      if !activeTeam.Valid() || !timer.Expired(now) || Flag(used.teamPause, activeTeam) { return None; }
      var duration := config.timers.pickAdditional;
      if phase == Ban {
        duration := config.timers.banAdditional;
      } else if phase == WaitingForResult {
        duration := config.timers.confirmationAdditional;
      }
      used := used.(teamPause := used.teamPause[activeTeam := true]);
      timer := StartTimer(now, duration);
      return Some([AdditionalTimeGranted, TimerStarted]);
    }

    method HandleCalibrate(actor: Actor, remaining: Duration, reason: string, now: Time) returns (events: Emitted)
      modifies this
      ensures board == old(board) && pool == old(pool)
      ensures Followed(DoCalibrate(old(Snapshot()), actor, remaining, reason, now), old(Snapshot()), Snapshot(), events)
    {
      hide MissingReason;
      if lifecycle != Running || phase == PhaseNone || !RefereeCan(actor, reason) || remaining < 0 || !TimerPresent() {
        return None;
      }
      if timer.paused {
        timer := timer.(remainingAtPause := remaining);
      } else {
        timer := StartTimer(now, remaining);
      }
      return Some([TimerCalibrated]);
    }

    method HandlePause(actor: Actor, reason: string, now: Time) returns (events: Emitted)
      modifies this
      ensures board == old(board) && pool == old(pool)
      ensures Followed(DoPause(old(Snapshot()), actor, reason, now), old(Snapshot()), Snapshot(), events)
    {
      hide MissingReason;
      if lifecycle != Running || phase == PhaseNone || !RefereeCan(actor, reason) || !TimerPresent() || timer.paused {
        return None;
      }
      timer := timer.(remainingAtPause := timer.Remaining(now), paused := true);
      return Some([TimerPaused]);
    }

    method HandleResume(actor: Actor, reason: string, now: Time) returns (events: Emitted)
      modifies this
      ensures board == old(board) && pool == old(pool)
      ensures Followed(DoResume(old(Snapshot()), actor, reason, now), old(Snapshot()), Snapshot(), events)
    {
      hide MissingReason;
      if lifecycle != Running || phase == PhaseNone || !RefereeCan(actor, reason) || !timer.paused { return None; }
      timer := StartTimer(now, if timer.remainingAtPause < 0 then 0 else timer.remainingAtPause);
      return Some([TimerResumed]);
    }

    method HandleSuspend(actor: Actor, reason: string, now: Time) returns (events: Emitted)
      modifies this
      ensures board == old(board) && pool == old(pool)
      ensures Followed(DoSuspend(old(Snapshot()), actor, reason, now), old(Snapshot()), Snapshot(), events)
    {
      hide MissingReason;
      if lifecycle != Running || !RefereeCan(actor, reason) { return None; }
      suspension := Some(Suspension(reason, now, TimerPresent(), timer.paused));
      lifecycle := Suspended;
      if TimerPresent() && !timer.paused {
        timer := timer.PausedAt(now);
        return Some([MatchSuspended] + [TimerPaused]);
      }
      return Some([MatchSuspended] + []);
    }

    method HandleResumeMatch(actor: Actor, reason: string, now: Time) returns (events: Emitted)
      modifies this
      ensures board == old(board) && pool == old(pool)
      ensures Followed(DoResumeMatch(old(Snapshot()), actor, reason, now), old(Snapshot()), Snapshot(), events)
    {
      hide MissingReason;
      if lifecycle != Suspended || suspension.None? || !RefereeCan(actor, reason) { return None; }
      var restarts := suspension.value.hadTimer && !suspension.value.timerWasPaused;
      suspension := None;
      lifecycle := Running;
      if restarts {
        timer := timer.ResumedAt(now);
        return Some([MatchResumed] + [TimerResumed]);
      }
      return Some([MatchResumed] + []);
    }

    // ----- skip and abort (engine.go 582-663)

    /** A match suspended before the skip is suspended again after it. */
    method SuspendAgain(reason: string, now: Time)
      modifies this
      ensures board == old(board) && pool == old(pool)
      ensures Snapshot() == old(Snapshot()).(lifecycle := Suspended, timer := old(timer).PausedAt(now),
                                             suspension := Some(Suspension(reason, now, true, false)))
    {
      lifecycle := Suspended;
      timer := timer.PausedAt(now);
      suspension := Some(Suspension(reason, now, true, false));
    }

    method HandleSkip(actor: Actor, reason: string, now: Time) returns (events: Emitted)
      requires Valid()
      modifies this
      ensures board == old(board) && pool == old(pool)
      ensures Followed(DoSkip(old(Snapshot()), actor, reason, now), old(Snapshot()), Snapshot(), events)
    {
      hide MissingReason, AdvanceBan, AdvancePick, UniqueIds, Keyed;
      if !RefereeCan(actor, reason) || (lifecycle != Running && lifecycle != Suspended) { return None; }
      if (phase != Ban && phase != Pick) || (lifecycle == Running && !timer.Expired(now)) { return None; }
      var wasSuspended := lifecycle == Suspended;
      lifecycle := Running;
      suspension := None;
      var more;
      if phase == Ban {
        more := MoveOnFromBan(now);
      } else {
        more := MoveOnFromPick(now);
      }
      if wasSuspended && lifecycle == Running {
        SuspendAgain(reason, now);
        return Some([ActionSkipped] + more + [TimerPaused]);
      }
      return Some([ActionSkipped] + more);
    }

    method HandleAbort(actor: Actor, reason: string) returns (events: Emitted)
      modifies this
      ensures board == old(board) && pool == old(pool)
      ensures Followed(DoAbort(old(Snapshot()), actor, reason), old(Snapshot()), Snapshot(), events)
    {
      hide MissingReason;
      if (lifecycle != Running && lifecycle != Suspended) || !RefereeCan(actor, reason) { return None; }
      StopPlay(Aborted);
      ClearPending();
      ending := ending.(abortReason := reason);
      return Some([MatchAborted]);
    }

    // ----- the tiebreaker (engine.go 665-817)

    method HandleRequestTB(actor: Actor, requestId: Id, basis: TBBasis) returns (events: Emitted)
      modifies this
      ensures board == old(board) && pool == old(pool)
      ensures Followed(DoRequestTB(old(Snapshot()), actor, requestId, basis), old(Snapshot()), Snapshot(), events)
    {
      if lifecycle != Running || phase != Pick { return None; }
      if actor.capability != Captain || actor.team.None? || !actor.team.value.Valid() { return None; }
      if timer.paused || requestId == "" || pendingTB.Some? { return None; }
      if basis != CaptainAgreement || turn < 11 || turn > 14 { return None; }
      pendingTB := Some(TBRequest(requestId, actor.team.value, basis));
      return Some([TBRequested]);
    }

    method HandleRespondTB(actor: Actor, requestId: Id, accept: bool, now: Time) returns (events: Emitted)
      modifies this
      ensures board == old(board) && pool == old(pool)
      ensures Followed(DoRespondTB(old(Snapshot()), actor, requestId, accept, now), old(Snapshot()), Snapshot(), events)
    {
      if lifecycle != Running || phase != Pick { return None; }
      if actor.capability != Captain || actor.team.None? || !actor.team.value.Valid() { return None; }
      if timer.paused || turn < 11 || turn > 14 { return None; }
      if pendingTB.None? || requestId == "" || requestId != pendingTB.value.id { return None; }
      if actor.team.value == pendingTB.value.requestedBy { return None; }
      var pending := pendingTB.value;
      pendingTB := None;
      if !accept { return Some([TBRequestRejected]); }
      EnterTB(TBEntry(pending.basis, pending.id, pending.requestedBy), now);
      return Some([TBRequestAccepted, TBPreparationStarted, TimerStarted]);
    }

    method EnterTB(entry: TBEntry, now: Time)
      modifies this
      ensures board == old(board) && pool == old(pool)
      ensures Snapshot() == old(Snapshot()).(phase := TBPreparation, activeTeam := NoTeam, tbEntry := Some(entry),
                                             timer := StartTimer(now, config.timers.tbPreparation))
    {
      phase := TBPreparation;
      activeTeam := NoTeam;
      tbEntry := Some(entry);
      timer := StartTimer(now, config.timers.tbPreparation);
    }

    method HandleStartTB(actor: Actor, reason: string, now: Time) returns (events: Emitted)
      modifies this
      ensures board == old(board) && pool == old(pool)
      ensures Followed(DoStartTB(old(Snapshot()), actor, reason, now), old(Snapshot()), Snapshot(), events)
    {
      hide MissingReason;
      if lifecycle != Running || phase != TBPreparation || actor.capability != Referee || timer.paused { return None; }
      if timer.Expired(now) && MissingReason(reason) { return None; }
      phase := TBPlaying;
      timer := NO_TIMER;
      return Some([TBStarted, TimerStopped]);
    }

    method HandleConfirmTB(actor: Actor, team: Team) returns (events: Emitted)
      modifies this
      ensures board == old(board) && pool == old(pool)
      ensures Followed(DoConfirmTB(old(Snapshot()), actor, team), old(Snapshot()), Snapshot(), events)
    {
      hide Rules.FinishMatch;
      if lifecycle != Running || phase != TBPlaying || actor.capability != Referee || !team.Valid() { return None; }
      FinishMatch(PlainResult(team, TBResult));
      return Some([TBResultConfirmed, MatchFinished]);
    }

    // ----- surrender (engine.go 819-872)

    method HandleSurrender(actor: Actor, team: Team, submitted: seq<int>, reason: string) returns (events: Emitted)
      modifies this
      ensures board == old(board) && pool == old(pool)
      ensures Followed(DoSurrender(old(Snapshot()), actor, team, submitted, reason), old(Snapshot()), Snapshot(), events)
    {
      hide MissingReason, SurrenderEvidence, Unique, Rules.FinishMatch;
      if (lifecycle != Running && lifecycle != Suspended) || !RefereeCan(actor, reason) || !team.Valid() {
        return None;
      }
      var evidence, ok := CheckSurrender(RosterOf(config.rosters, team), submitted);
      if !ok { return None; }
      FinishMatch(Result(team.Opponent(), Surrender, Some(team), evidence, 0, 0));
      return Some([SurrenderRecorded, MatchFinished]);
    }

    // ----- Execute (engine.go 10-79)

    method HandleDirect(actor: Actor, command: Command, now: Time) returns (events: Emitted)
      requires Valid() && !IsProxy(command)
      modifies this, board
      ensures Valid() && (board == old(board) || fresh(board))
      ensures Followed(Direct(old(Snapshot()), actor, command, now), old(Snapshot()), Snapshot(), events)
    {
      hide StrategistMay, UniqueIds, Keyed, Followed, DoStartMatch, DoBan, DoPlacePiece, DoPlaceShiro, DoRob,
        DoGrant, DoCalibrate, DoPause, DoResume, DoSuspend, DoResumeMatch, DoSkip, DoAbort, DoRequestTB,
        DoRespondTB, DoStartTB, DoConfirmTB, DoSurrender, DoConfirmResult;
      match command {
        case StartMatch => events := HandleStartMatch(actor, now);
        case BanPoolSlot(slotId) => events := HandleBan(actor, slotId, now);
        case PlacePiece(slotId, pieceId, c) => events := HandlePlacePiece(actor, slotId, pieceId, c, now);
        case PlaceShiro(pieceId, c) => events := HandlePlaceShiro(actor, pieceId, c, now);
        case RobPiece(target, sets) => events := HandleRob(actor, target, sets, now);
        case GrantAdditionalTime(reason) => events := HandleGrant(actor, reason, now);
        case CalibrateTimer(remaining, reason) => events := HandleCalibrate(actor, remaining, reason, now);
        case PauseTimer(reason) => events := HandlePause(actor, reason, now);
        case ResumeTimer(reason) => events := HandleResume(actor, reason, now);
        case SuspendMatch(reason) => events := HandleSuspend(actor, reason, now);
        case ResumeMatch(reason) => events := HandleResumeMatch(actor, reason, now);
        case SkipCurrentAction(reason) => events := HandleSkip(actor, reason, now);
        case AbortMatch(reason) => events := HandleAbort(actor, reason);
        case RequestTB(requestId, basis) => events := HandleRequestTB(actor, requestId, basis);
        case RespondTBRequest(requestId, accept) => events := HandleRespondTB(actor, requestId, accept, now);
        case StartTB(reason) => events := HandleStartTB(actor, reason, now);
        case ConfirmTBResult(team) => events := HandleConfirmTB(actor, team);
        case RecordSurrender(team, submitted, reason) => events := HandleSurrender(actor, team, submitted, reason);
        case ConfirmBeatmapResult(pieceId, team) => events := HandleConfirmResult(actor, pieceId, team, now);
        case _ =>
          NothingFollowed(Snapshot());
          events := None;
      }
    }

    /** A proxied action runs as the acting team's strategist or captain, and is recorded. */
    method HandleProxy(actor: Actor, command: Command, now: Time) returns (events: Emitted)
      requires Valid() && IsProxy(command)
      modifies this, board
      ensures Valid() && (board == old(board) || fresh(board))
      ensures Followed(Apply(old(Snapshot()), actor, command, now), old(Snapshot()), Snapshot(), events)
    {
      hide UniqueIds, Keyed, Direct, MissingReason;
      var team := command.actingTeam;
      if !RefereeCan(actor, command.reason) || !team.Valid() { return None; }
      if IsStrategistProxy(command) {
        var at := now;
        if !timer.paused && timer.Expired(now) { at := timer.startedAt; }
        events := HandleDirect(StrategistActor(team), Underlying(command), at);
      } else {
        events := HandleDirect(CaptainActor(team), Underlying(command), now);
      }
      if events.Some? { events := Some(events.value + [RefereeProxyActionRecorded]); }
    }

    /** Execute works on a copy: the receiver never changes, whatever happens. */
    method Execute(actor: Actor, command: Command, now: Time) returns (next: Match, events: Emitted)
      requires Valid()
      ensures fresh(next) && fresh(next.board)
      ensures var t := Rules.Execute(Snapshot(), actor, command, now);
              if t.None? then events.None?
              else events == Some(t.value.events) && next.Snapshot() == t.value.state && next.Valid()
    {
      hide UniqueIds, Keyed, Direct, Apply;
      next := new Match(Snapshot());
      if IsProxy(command) {
        events := next.HandleProxy(actor, command, now);
      } else {
        events := next.HandleDirect(actor, command, now);
      }
      UnproxiedIsDirect(Snapshot(), actor, command, now);
      if events.None? || events.value == [] { return next, None; }
      next.version := next.version + 1;
    }
  }

  /** validateSurrenderEvidence: every id rostered, repetitions dropped, four left with the leader. */
  method CheckSurrender(roster: Roster, submitted: seq<int>) returns (unique: seq<int>, ok: bool)
    ensures ok <==> SurrenderEvidence(roster, submitted)
    ensures ok ==> unique == Unique(submitted)
  {
    hide Rostered;
    unique := [];
    var leaderIncluded := false;
    for i := 0 to |submitted|
      invariant unique == Unique(submitted[..i])
      invariant forall k | 0 <= k < i :: Rostered(roster, submitted[k])
      invariant leaderIncluded <==> roster.leader in submitted[..i]
    {
      if !Rostered(roster, submitted[i]) { return [], false; }
      var front := submitted[..i];
      assert submitted[..i + 1] == front + [submitted[i]] && submitted[..i + 1][..i] == front;
      UniqueHasAll(front);
      if submitted[i] !in unique {
        unique := unique + [submitted[i]];
        leaderIncluded := leaderIncluded || submitted[i] == roster.leader;
      }
    }
    assert submitted[..|submitted|] == submitted;
    ok := |unique| >= 4 && leaderIncluded;
  }

  lemma {:induction false} UniqueHasAll(submitted: seq<int>)
    ensures forall x :: x in Unique(submitted) <==> x in submitted
  {
    if submitted != [] {
      var front := submitted[..|submitted| - 1];
      UniqueHasAll(front);
      assert submitted == front + [submitted[|submitted| - 1]];
    }
  }

  lemma NoTargetNoRobbery(b: Board, team: Team, target: Id, sets: seq<seq<Id>>)
    requires !HasPiece(b, target)
    ensures !RobberyAccepted(b, team, target, sets)
  {}

  lemma TargetDecides(b: Board, team: Team, c: Cell, sets: seq<seq<Id>>)
    requires UniqueIds(b) && c in b
    ensures RobberyAccepted(b, team, b[c].id, sets) <==> Distinct(Flatten(sets)) && RobberyOf(b, team, b[c], sets)
  {
    hide RobberyOf, Flatten, Distinct;
    forall k | k in b && b[k].id == b[c].id ensures k == c { SameIdSameCell(b, k, c); }
  }

  lemma RobberyKeepsIds(b: Board, team: Team, target: Id, ids: set<Id>)
    requires UniqueIds(b)
    ensures UniqueIds(BoardAfterRobbery(b, team, target, ids)) && UniqueIds(SetOwner(b, target, team))
  {
    SameIdsStayUnique(b, MarkDead(b, ids));
    SameIdsStayUnique(MarkDead(b, ids), SetOwner(MarkDead(b, ids), target, team));
    SameIdsStayUnique(b, SetOwner(b, target, team));
  }

  lemma SameIdsStayUnique(b: Board, b': Board)
    requires UniqueIds(b) && b'.Keys == b.Keys && forall c | c in b :: b'[c].id == b[c].id
    ensures UniqueIds(b')
  {
    forall c | c in b' ensures CellWith(b', b'[c].id) == c { SameIdSameCell(b, CellWith(b', b'[c].id), c); }
  }

  lemma NothingFound(b: Board, id: Id, team: Team)
    ensures !HasPiece(b, id) ==> SetOwner(b, id, team) == b
  {}

  lemma NothingFollowed(s: State)
    ensures Followed(None, s, s, None)
  {}

  lemma UnproxiedIsDirect(s: State, actor: Actor, command: Command, now: Time)
    ensures !IsProxy(command) ==> Apply(s, actor, command, now) == Direct(s, actor, command, now)
    ensures var t := Apply(s, actor, command, now);
            Rules.Execute(s, actor, command, now)
            == if t.None? || t.value.events == [] then None
               else Some(Transition(t.value.state.(version := t.value.state.version + 1), t.value.events))
  {
    hide Direct;
  }

  lemma SlotStaysKeyed(pool: Pool, slotId: Id, state: SlotState)
    requires Keyed(pool) && slotId in pool
    ensures pool[slotId].id == slotId
    ensures Keyed(pool[slotId := pool[slotId].(state := state)])
  {
    var pool' := pool[slotId := pool[slotId].(state := state)];
    forall x, y | IsShiroSlot(pool', x) && IsShiroSlot(pool', y) ensures x == y {
      assert IsShiroSlot(pool, x) && IsShiroSlot(pool, y);
    }
  }
}
