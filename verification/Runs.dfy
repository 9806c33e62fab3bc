/** Committed runs: a configured match and then commands, each accepted by Execute and
    passed by ValidateState before the store keeps it
    (internal/persistence/snapshot_store.go 291, match_snapshot.go 49). */
module Runs {
  import opened MatchModel
  import opened BoardRules
  import opened Rules
  import opened Validation
  import opened Effects
  import A = Acceptance
  import G = GateExactness
  import V = Availability

  datatype Run = Start(config: Configuration) | Step(before: Run, actor: Actor, command: Command, now: Time)

  /** The state after the run: the fold of Execute, where a rejected command changes nothing. */
  ghost function StateOf(r: Run): State {
    match r
    case Start(c) => ReadyState(c)
    case Step(before, actor, command, now) =>
      var t := Execute(StateOf(before), actor, command, now);
      if t.Some? then t.value.state else StateOf(before)
  }

  ghost predicate Committed(r: Run) {
    match r
    case Start(c) => ValidConfiguration(c)
    case Step(before, actor, command, now) =>
      && Committed(before) && now != 0
      && Execute(StateOf(before), actor, command, now).Some? && ValidateState(StateOf(r))
  }

  /** The clock never goes back. */
  predicate InOrder(r: Run) { r.Step? ==> InOrder(r.before) && (r.before.Step? ==> r.before.now <= r.now) }

  // ----- the first state

  predicate WellFormedSlots(slots: seq<Slot>) {
    && (forall i | 0 <= i < |slots| :: slots[i].id != "" && !slots[i].mod.OtherMod?)
    && (forall i, j | 0 <= i < j < |slots| :: slots[i].id != slots[j].id)
  }

  lemma {:induction false} PoolHoldsSlots(slots: seq<Slot>)
    requires WellFormedSlots(slots)
    ensures forall id | id in PoolOf(slots) :: exists i :: 0 <= i < |slots| && slots[i].id == id
    ensures forall id | id in PoolOf(slots) :: ValidSlot(id, PoolOf(slots)[id]) && PoolOf(slots)[id].state == Available
  {
    if slots != [] {
      var front := slots[..|slots| - 1];
      PoolHoldsSlots(front);
      forall id | id in PoolOf(slots) ensures exists i :: 0 <= i < |slots| && slots[i].id == id {
        if id in PoolOf(front) {
          var i :| 0 <= i < |front| && front[i].id == id;
          assert slots[i].id == id;
        } else {
          assert slots[|slots| - 1].id == id;
        }
      }
    }
  }

  lemma AddingCounts(pool: Pool, slot: Slot, mod: Mod)
    requires slot.id !in pool
    ensures |SlotsOf(pool[slot.id := slot.(state := Available)], mod)| == |SlotsOf(pool, mod)| + if slot.mod == mod then 1 else 0
  {
    var pool' := pool[slot.id := slot.(state := Available)];
    if slot.mod == mod {
      assert SlotsOf(pool', mod) == SlotsOf(pool, mod) + {slot.id};
    } else {
      assert SlotsOf(pool', mod) == SlotsOf(pool, mod);
    }
  }

  lemma {:induction false} PoolCountsSlots(slots: seq<Slot>, mod: Mod)
    requires WellFormedSlots(slots)
    ensures |SlotsOf(PoolOf(slots), mod)| == CountMod(slots, mod)
  {
    if slots != [] {
      var front, last := slots[..|slots| - 1], slots[|slots| - 1];
      PoolCountsSlots(front, mod);
      PoolHoldsSlots(front);
      AddingCounts(PoolOf(front), last, mod);
    }
  }

  lemma {:induction false} PoolIsConfigured(slots: seq<Slot>)
    requires WellFormedSlots(slots)
    ensures |PoolOf(slots)| == |slots|
    ensures forall i | 0 <= i < |slots| ::
              slots[i].id in PoolOf(slots) && PoolOf(slots)[slots[i].id] == Slot(slots[i].id, slots[i].mod, Available)
  {
    if slots != [] {
      var front := slots[..|slots| - 1];
      PoolIsConfigured(front);
      PoolHoldsSlots(front);
      assert slots[|slots| - 1].id !in PoolOf(front);
      forall i | 0 <= i < |front| ensures slots[i].id in PoolOf(front) && slots[i].id != slots[|slots| - 1].id {
        assert front[i] == slots[i];
      }
    }
  }

  /** A match starts with the configured slots, all available, and nothing played. */
  lemma ReadyHoldsSlots(c: Configuration)
    requires ValidConfiguration(c)
    ensures |ReadyState(c).pool| == |c.slots| && ReadyState(c).board == map[] && ReadyState(c).lifecycle == Ready
    ensures forall i | 0 <= i < |c.slots| ::
              && c.slots[i].id in ReadyState(c).pool
              && ReadyState(c).pool[c.slots[i].id] == Slot(c.slots[i].id, c.slots[i].mod, Available)
  {
    hide ValidRosters, PoolOf, CountMod;
    PoolIsConfigured(c.slots);
  }

  /** NewReadyState builds a state the recovery checker accepts. */
  lemma ReadyIsValid(c: Configuration)
    requires ValidConfiguration(c)
    ensures ValidateState(ReadyState(c))
  {
    hide ValidRosters, PoolOf, TBIsForced, SlotsOf, CountMod;
    PoolHoldsSlots(c.slots);
    PoolCountsSlots(c.slots, Shiro);
    PoolCountsSlots(c.slots, TB);
  }

  lemma RunIsValid(r: Run)
    requires Committed(r)
    ensures ValidateState(StateOf(r))
  {
    hide ValidateState, Execute, ReadyState;
    if r.Start? { ReadyIsValid(r.config); }
  }

  lemma StepShows(r: Run)
    requires Committed(r) && r.Step?
    ensures NetEffect(StateOf(r.before), StateOf(r), r.command)
    ensures ValidateState(StateOf(r.before)) && ValidateState(StateOf(r))
  {
    hide ValidateState, Execute, NetEffect;
    RunIsValid(r.before);
    ExecuteShows(StateOf(r.before), r.actor, r.command, r.now);
  }

  /** A run goes on with an accepted step exactly when the step is not an exception. */
  lemma RunsGoOn(r: Run, actor: Actor, command: Command, now: Time)
    requires Committed(r) && now != 0
    ensures Committed(Step(r, actor, command, now))
        <==> Execute(StateOf(r), actor, command, now).Some? && !G.Breaks(StateOf(r), command)
  {
    hide ValidateState, Execute, G.Breaks;
    RunIsValid(r);
    G.GateIsExact(StateOf(r), actor, command, now);
  }

  // ----- four in a row ends the match, and nothing else shows four

  ghost predicate WonByFour(s: State, team: Team) { FinishedBy(s, FourAlignment) && s.ending.winner == Some(team) }

  ghost predicate FourMeansOver(s: State) {
    && (HasFour(s.board, Red) <==> WonByFour(s, Red))
    && (HasFour(s.board, Blue) <==> WonByFour(s, Blue))
  }

  lemma NoNewLine(b: Board, b': Board, team: Team)
    requires forall c :: Held(b', team, c) ==> Held(b, team, c)
    ensures HasFour(b', team) ==> HasFour(b, team)
  {
    if HasFour(b', team) {
      var c, d :| Line(b', team, 4, c, d);
      assert Line(b, team, 4, c, d);
    }
  }

  lemma PlacedPieceHoldsNothing(b: Board, c: Cell, p: Piece, team: Team)
    requires c !in b && p.outcome != Won
    ensures HasFour(b[c := p], team) ==> HasFour(b, team)
  {
    NoNewLine(b, b[c := p], team);
  }

  // A takeover gives nothing to the other team.
  lemma TakeoverGivesOthersNothing(b: Board, team: Team, target: Id, sacrifice: set<Id>, other: Team)
    requires other != team
    ensures HasFour(BoardAfterRobbery(b, team, target, sacrifice), other) ==> HasFour(b, other)
    ensures HasFour(SetOwner(b, target, team), other) ==> HasFour(b, other)
  {
    NoNewLine(b, BoardAfterRobbery(b, team, target, sacrifice), other);
    NoNewLine(b, SetOwner(b, target, team), other);
  }

  lemma MovingOnIsNoWin(s: State, s': State)
    requires BanMoves(s, s') || PickMoves(s, s')
    ensures !WonByFour(s', Red) && !WonByFour(s', Blue)
  {}

  lemma PlacingKeepsFour(s: State, s': State, command: Command)
    requires NetEffect(s, s', command) && FourMeansOver(s)
    requires Underlying(command).PlacePiece? || Underlying(command).PlaceShiro?
    ensures FourMeansOver(s')
  {
    hide HasFour, PickMoves, Empty, ShiroAvailable, TheShiro;
    if PickMoves(s, s') { MovingOnIsNoWin(s, s'); }
    var c := Underlying(command).cell;
    EmptyMeansAbsent(s.board, c);
    PlacedPieceHoldsNothing(s.board, c, s'.board[c], Red);
    PlacedPieceHoldsNothing(s.board, c, s'.board[c], Blue);
  }

  lemma WinningKeepsFour(s: State, s': State, command: Command)
    requires NetEffect(s, s', command) && FourMeansOver(s)
    requires Underlying(command).RobPiece? || Underlying(command).ConfirmBeatmapResult?
    ensures FourMeansOver(s')
  {
    hide HasFour, PickMoves, BoardAfterRobbery, SetOwner, RobberyAccepted;
    if PickMoves(s, s') { MovingOnIsNoWin(s, s'); }
    match Underlying(command)
    case RobPiece(target, sets) =>
      TakeoverGivesOthersNothing(s.board, s.activeTeam, target, Ids(Flatten(sets)), s.activeTeam.Opponent());
    case ConfirmBeatmapResult(pieceId, team) =>
      TakeoverGivesOthersNothing(s.board, team, pieceId, {}, team.Opponent());
  }

  lemma SameBoardKeepsFour(s: State, s': State, command: Command)
    requires NetEffect(s, s', command) && FourMeansOver(s) && s'.board == s.board
    requires !Underlying(command).PlacePiece? && !Underlying(command).PlaceShiro?
    requires !Underlying(command).RobPiece? && !Underlying(command).ConfirmBeatmapResult?
    ensures FourMeansOver(s')
  {
    hide HasFour, BanMoves, PickMoves;
    if BanMoves(s, s') || PickMoves(s, s') { MovingOnIsNoWin(s, s'); }
  }

  lemma FourStep(s: State, s': State, command: Command)
    requires NetEffect(s, s', command) && FourMeansOver(s)
    ensures FourMeansOver(s')
  {
    hide FourMeansOver, HasFour, BanMoves, PickMoves, BoardAfterRobbery, SetOwner, RobberyAccepted,
      ShiroAvailable, TheShiro, Empty, FinishedBy;
    match Underlying(command)
    case PlacePiece(_, _, _) => PlacingKeepsFour(s, s', command);
    case PlaceShiro(_, _) => PlacingKeepsFour(s, s', command);
    case RobPiece(_, _) => WinningKeepsFour(s, s', command);
    case ConfirmBeatmapResult(_, _) => WinningKeepsFour(s, s', command);
    case _ => SameBoardKeepsFour(s, s', command);
  }

  lemma EmptyBoardHasNoFour(team: Team)
    ensures !HasFour(map[], team)
  {
    forall c: Cell, d: Dir ensures !Line(map[], team, 4, c, d) {
      assert !Held(map[], team, Shift(c, d, 0));
    }
  }

  /** In every committed run a team has four aligned WON pieces exactly when the match is
      over by FOUR_ALIGNMENT with that team as winner. So play stops at the first four. */
  lemma {:induction false} FourEndsTheMatch(r: Run)
    requires Committed(r)
    ensures FourMeansOver(StateOf(r))
  {
    hide Execute, ValidateState, NetEffect, FourMeansOver;
    match r
    case Start(c) => ReadyHasNoFour(c);
    case Step(before, _, command, _) =>
      FourEndsTheMatch(before);
      StepShows(r);
      FourStep(StateOf(before), StateOf(r), command);
  }

  lemma ReadyHasNoFour(c: Configuration)
    ensures FourMeansOver(ReadyState(c))
  {
    hide HasFour;
    EmptyBoardHasNoFour(Red);
    EmptyBoardHasNoFour(Blue);
  }

  lemma NeverTwoFours(r: Run)
    requires Committed(r)
    ensures !(HasFour(StateOf(r).board, Red) && HasFour(StateOf(r).board, Blue))
  {
    hide HasFour, StateOf, Committed;
    FourEndsTheMatch(r);
  }

  // ----- an open pick is never stuck

  ghost predicate PickIsOpen(s: State) { InPlay(s) && s.phase == Pick ==> !Stalemated(s.pool, s.board) }

  lemma StalemateReadsCells(pool: Pool, b: Board, b': Board)
    requires b'.Keys == b.Keys
    ensures Stalemated(pool, b') <==> Stalemated(pool, b)
  {
    forall id, c ensures LegalPlacement(pool, b', id, c) == LegalPlacement(pool, b, id, c) {}
  }

  lemma OpenStep(s: State, s': State, command: Command)
    requires NetEffect(s, s', command) && PickIsOpen(s)
    ensures PickIsOpen(s')
  {
    hide HasFour, Stalemated, RobberyAccepted, ShiroAvailable, TheShiro;
    if Underlying(command).RobPiece? { StalemateReadsCells(s.pool, s.board, s'.board); }
  }

  lemma {:induction false} PicksStayOpen(r: Run)
    requires Committed(r)
    ensures PickIsOpen(StateOf(r))
  {
    hide Execute, ValidateState, NetEffect, Stalemated;
    match r
    case Start(_) =>
    case Step(before, _, command, _) =>
      PicksStayOpen(before);
      StepShows(r);
      OpenStep(StateOf(before), StateOf(r), command);
  }

  /** The active strategist of an open pick always has a placement Execute accepts. */
  ghost predicate CanPlace(s: State, now: Time) {
    || (exists id, pieceId, c :: Execute(s, StrategistActor(s.activeTeam), PlacePiece(id, pieceId, c), now).Some?)
    || (exists pieceId, c :: Execute(s, StrategistActor(s.activeTeam), PlaceShiro(pieceId, c), now).Some?)
  }

  lemma OpenPickCanPlace(s: State, now: Time)
    requires ValidateState(s) && now != 0 && RunningPhase(s, Pick) && LiveTimer(s.timer, now)
    requires !Stalemated(s.pool, s.board)
    ensures CanPlace(s, now)
  {
    hide ValidateState, Execute, LiveTimer, FreshPieceId, ShiroAvailable;
    V.PlayHasActiveTeam(s);
    var id, c :| LegalPlacement(s.pool, s.board, id, c);
    var pieceId := V.FreshPieceIdExists(s.board);
    if s.pool[id].mod == Shiro {
      assert IsShiroSlot(s.pool, id);
      V.OneShiroOf(s);
      A.ShiroAccepted(s, StrategistActor(s.activeTeam), pieceId, c, now);
    } else {
      A.PlaceAccepted(s, StrategistActor(s.activeTeam), id, pieceId, c, now);
    }
  }

  ghost predicate CanStillRob(s: State, team: Team) {
    team.Valid() && !Flag(s.used.robbery, team) && TeamHasLegalRobbery(s.board, team)
  }

  lemma LatePickCanRob(s: State)
    requires ValidateState(s) && InPlay(s) && s.phase == Pick && s.turn >= 15
    requires !HasFour(s.board, Red) && !HasFour(s.board, Blue)
    ensures CanStillRob(s, Red) || CanStillRob(s, Blue)
  {
    hide HasFour, TeamHasLegalRobbery, ValidConfig, ValidPool, ValidBoard, ValidPending, ValidTurnAndTimer,
      ValidLifecycle;
  }

  /** In every committed run an unfinished pick goes on: it is no stalemate, a strategist
      with a live timer can place, and from turn 15 some team can still rob. */
  lemma PicksMakeProgress(r: Run, now: Time)
    requires Committed(r) && now != 0
    ensures var s := StateOf(r);
            InPlay(s) && s.phase == Pick ==>
              && !Stalemated(s.pool, s.board)
              && (s.lifecycle == Running && LiveTimer(s.timer, now) ==> CanPlace(s, now))
              && (s.turn >= 15 ==> CanStillRob(s, Red) || CanStillRob(s, Blue))
  {
    hide StateOf, Committed, ValidateState, Stalemated, CanPlace, CanStillRob, LiveTimer, HasFour;
    RunIsValid(r);
    PicksStayOpen(r);
    FourEndsTheMatch(r);
    var s := StateOf(r);
    if InPlay(s) && s.phase == Pick {
      if s.lifecycle == Running && LiveTimer(s.timer, now) { OpenPickCanPlace(s, now); }
      if s.turn >= 15 { LatePickCanRob(s); }
    }
  }

  // ----- turn accounting

  /** Picks and bans the referee skipped in the run. */
  ghost function Skips(r: Run, phase: Phase): nat {
    match r
    case Start(_) => 0
    case Step(before, _, command, _) =>
      Skips(before, phase) + if Skipping(command, StateOf(before), phase) then 1 else 0
  }

  function InState(pool: Pool, state: SlotState): set<Id> { set id | id in pool && pool[id].state == state }

  ghost predicate Accounted(s: State, skippedPicks: nat, skippedBans: nat) {
    && |InState(s.pool, Selected)| == |s.board|
    && (InPlay(s) && s.phase == Ban ==> skippedPicks == 0 && |s.board| == 0)
    && (InPlay(s) && (s.phase == Pick || InTB(s)) ==> s.turn - 1 == |s.board| + skippedPicks)
    && (InPlay(s) && s.phase == WaitingForResult ==> s.turn == |s.board| + skippedPicks)
    && (s.lifecycle == Ready ==> skippedPicks == skippedBans == |s.board| == |InState(s.pool, Banned)| == 0)
    && (InPlay(s) && s.phase == Ban ==> |InState(s.pool, Banned)| + skippedBans == s.turn + 3 <= 3)
    && (InPlay(s) && s.phase != Ban ==> |InState(s.pool, Banned)| + skippedBans == 4)
  }

  lemma SlotMoves(pool: Pool, id: Id, to: SlotState)
    requires id in pool && pool[id].state == Available && to != Available
    ensures var pool' := pool[id := pool[id].(state := to)];
            && |InState(pool', to)| == |InState(pool, to)| + 1
            && (forall other | other != Available && other != to :: |InState(pool', other)| == |InState(pool, other)|)
  {
    var pool' := pool[id := pool[id].(state := to)];
    assert InState(pool', to) == InState(pool, to) + {id};
    forall other | other != Available && other != to ensures InState(pool', other) == InState(pool, other) {}
  }

  lemma BoardGrows(b: Board, b': Board, c: Cell)
    requires c !in b && c in b' && b' == b[c := b'[c]]
    ensures |b'| == |b| + 1
  {}

  lemma SameCellsSameSize(b: Board, b': Board)
    requires b.Keys == b'.Keys
    ensures |b| == |b'|
  {}

  lemma PhaseOfPlay(s: State)
    requires ValidateState(s) && InPlay(s)
    ensures s.phase in {Ban, Pick, WaitingForResult, TBPreparation, TBPlaying}
    ensures s.phase == Ban ==> FIRST_BAN_TURN <= s.turn <= FINAL_BAN_TURN
  {}

  predicate Skipping(command: Command, s: State, phase: Phase) { command.SkipCurrentAction? && s.phase == phase }

  ghost predicate Accounts(s: State, s': State, command: Command, picks: nat, bans: nat) {
    Accounted(s', picks + (if Skipping(command, s, Pick) then 1 else 0), bans + (if Skipping(command, s, Ban) then 1 else 0))
  }

  // What the accounting needs of a turn that moves on.
  lemma BanMovesTurn(s: State, s': State)
    requires BanMoves(s, s') && ValidateState(s) && InPlay(s) && s.phase == Ban
    ensures s'.lifecycle != Ready
    ensures InPlay(s') ==> (if s.turn == 0 then s'.turn == 1 && (s'.phase == Pick || InTB(s'))
                            else s'.phase == Ban && s'.turn == s.turn + 1 && s'.turn <= 0)
  {
    hide ValidConfig, ValidUsed, ValidPool, ValidBoard, ValidPending, ValidEvidence, Stalemated;
  }

  lemma PickMovesTurn(s: State, s': State)
    requires PickMoves(s, s')
    ensures s'.turn == s.turn + 1 && s'.lifecycle != Ready && (InPlay(s') ==> s'.phase == Pick || InTB(s'))
  {}

  lemma BanAccount(s: State, s': State, command: Command, picks: nat, bans: nat)
    requires ValidateState(s) && NetEffect(s, s', command) && Accounted(s, picks, bans)
    requires Underlying(command).BanPoolSlot?
    ensures Accounts(s, s', command, picks, bans)
  {
    hide ValidateState, BanMoves, InState;
    PhaseOfPlay(s);
    BanMovesTurn(s, s');
    SlotMoves(s.pool, Underlying(command).slotId, Banned);
  }

  lemma PlacementAccount(s: State, s': State, command: Command, picks: nat, bans: nat)
    requires ValidateState(s) && NetEffect(s, s', command) && Accounted(s, picks, bans)
    requires Underlying(command).PlacePiece? || Underlying(command).PlaceShiro?
    ensures Accounts(s, s', command, picks, bans)
  {
    hide ValidateState, PickMoves, InState, Empty, ShiroAvailable, TheShiro;
    match Underlying(command)
    case PlacePiece(id, _, c) =>
      SlotMoves(s.pool, id, Selected);
      EmptyMeansAbsent(s.board, c);
      BoardGrows(s.board, s'.board, c);
    case PlaceShiro(_, c) =>
      ShiroIsThere(s.pool);
      SlotMoves(s.pool, TheShiro(s.pool), Selected);
      EmptyMeansAbsent(s.board, c);
      BoardGrows(s.board, s'.board, c);
      PickMovesTurn(s, s');
  }

  lemma OwnerAccount(s: State, s': State, command: Command, picks: nat, bans: nat)
    requires NetEffect(s, s', command) && Accounted(s, picks, bans)
    requires Underlying(command).RobPiece? || Underlying(command).ConfirmBeatmapResult?
    ensures Accounts(s, s', command, picks, bans)
  {
    hide HasFour, PickMoves, BoardAfterRobbery, SetOwner, RobberyAccepted, InState;
    match Underlying(command)
    case RobPiece(target, sets) =>
      RobKeepsCells(s.board, s.activeTeam, target, Ids(Flatten(sets)));
      SameCellsSameSize(s.board, s'.board);
    case ConfirmBeatmapResult(pieceId, team) =>
      RobKeepsCells(s.board, team, pieceId, {});
      SameCellsSameSize(s.board, s'.board);
      if !HasFour(s'.board, team) { PickMovesTurn(s, s'); }
  }

  lemma StillAccount(s: State, s': State, command: Command, picks: nat, bans: nat)
    requires ValidateState(s) && NetEffect(s, s', command) && Accounted(s, picks, bans) && Still(s, s')
    requires !Underlying(command).BanPoolSlot? && !Underlying(command).PlacePiece? && !Underlying(command).PlaceShiro?
    requires !Underlying(command).RobPiece? && !Underlying(command).ConfirmBeatmapResult?
    ensures Accounts(s, s', command, picks, bans)
  {
    hide ValidateState, BanMoves, PickMoves, InState;
    if InPlay(s) { PhaseOfPlay(s); }
    if command.SkipCurrentAction? {
      if s.phase == Ban { BanMovesTurn(s, s'); } else { PickMovesTurn(s, s'); }
    }
  }

  lemma AccountStep(s: State, s': State, command: Command, picks: nat, bans: nat)
    requires ValidateState(s) && NetEffect(s, s', command) && Accounted(s, picks, bans)
    ensures Accounts(s, s', command, picks, bans)
  {
    hide ValidateState, Accounted, Accounts, HasFour, BanMoves, PickMoves, BoardAfterRobbery, SetOwner,
      RobberyAccepted, Empty, ShiroAvailable, TheShiro;
    match Underlying(command)
    case BanPoolSlot(_) => BanAccount(s, s', command, picks, bans);
    case PlacePiece(_, _, _) => PlacementAccount(s, s', command, picks, bans);
    case PlaceShiro(_, _) => PlacementAccount(s, s', command, picks, bans);
    case RobPiece(_, _) => OwnerAccount(s, s', command, picks, bans);
    case ConfirmBeatmapResult(_, _) => OwnerAccount(s, s', command, picks, bans);
    case _ => StillAccount(s, s', command, picks, bans);
  }

  lemma EmptyMeansAbsent(b: Board, c: Cell)
    requires Empty(b, c)
    ensures c !in b && OnBoard(c)
  {}

  lemma ShiroIsThere(pool: Pool)
    requires ShiroAvailable(pool)
    ensures exists id :: IsShiroSlot(pool, id)
    ensures IsShiroSlot(pool, TheShiro(pool)) && pool[TheShiro(pool)].state == Available
  {}

  lemma RobKeepsCells(b: Board, team: Team, target: Id, sacrifice: set<Id>)
    ensures BoardAfterRobbery(b, team, target, sacrifice).Keys == b.Keys && SetOwner(b, target, team).Keys == b.Keys
  {}

  lemma ReadyIsAccounted(c: Configuration)
    requires ValidConfiguration(c)
    ensures Accounted(ReadyState(c), 0, 0)
  {
    PoolHoldsSlots(c.slots);
    assert InState(PoolOf(c.slots), Selected) == {} && InState(PoolOf(c.slots), Banned) == {};
  }

  /** Over every committed run the turn counts the pieces and the skips, and the bans and
      their skips fill the four ban turns. */
  lemma {:induction false} TurnsAreAccounted(r: Run)
    requires Committed(r)
    ensures Accounted(StateOf(r), Skips(r, Pick), Skips(r, Ban))
  {
    hide Execute, ValidateState, NetEffect, Accounted, ReadyState;
    match r
    case Start(c) => ReadyIsAccounted(c);
    case Step(before, _, command, _) =>
      TurnsAreAccounted(before);
      StepShows(r);
      AccountStep(StateOf(before), StateOf(r), command, Skips(before, Pick), Skips(before, Ban));
  }

  // A corollary of the gate alone: SELECTED slots and pieces are in bijection.
  lemma SelectedMatchPieces(r: Run, id: Id, c: Cell)
    requires Committed(r)
    ensures var s := StateOf(r);
            && (c in s.board ==> s.board[c].source in InState(s.pool, Selected) && CellFrom(s.board, s.board[c].source) == c)
            && (id in InState(s.pool, Selected) ==> HasPieceFrom(s.board, id))
  {
    hide StateOf, Committed;
    RunIsValid(r);
  }
}
