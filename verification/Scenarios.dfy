/** Played matches: committed runs, from a configured match on, that end where the engine
    and the recovery checker disagree or where nothing can follow (internal/matchengine/
    engine.go 81-214, 477-663, 819-846). */
module Scenarios {
  import opened MatchModel
  import opened BoardRules
  import opened Rules
  import opened Validation
  import opened Runs
  import A = Acceptance
  import G = GateExactness
  import L = Availability
  import P = Progress
  import V = Authority

  // ----- the match

  // The standard timers (model.go 199-210), in seconds.
  const TIMERS := TimerConfig("RCTS1_STANDARD", 60, 15, 90, 30, 20, 10, 90)

  const NM1 := Slot("NM1", NM, Available)

  const SLOTS := [NM1, Slot("SHIRO", Shiro, Available), Slot("TB", TB, Available)]

  const RED_ROSTER := Roster(1, [2, 3, 4])

  const CONFIGURATION := Configuration(Red, Red, SLOTS, map[Red := RED_ROSTER, Blue := Roster(5, [6, 7, 8])], TIMERS)

  lemma ConfigurationIsValid()
    ensures ValidConfiguration(CONFIGURATION)
  {
    hide ValidRosters, CountMod;
    RostersAreValid();
    SlotsAreValid();
  }

  lemma RostersAreValid()
    ensures ValidRosters(CONFIGURATION.rosters)
  {
    var rosters := map[Red := RED_ROSTER, Blue := Roster(5, [6, 7, 8])];
    assert rosters.Keys == {Red, Blue};
    assert |rosters.Keys| == |rosters|;
  }

  lemma SlotsAreValid()
    ensures ValidSlotList(SLOTS)
  {
    assert SLOTS[..2][..1] == [NM1] && SLOTS[..2] == [NM1, Slot("SHIRO", Shiro, Available)] && [NM1][..0] == [];
    assert CountMod([], Shiro) == 0 && CountMod([], TB) == 0;
    assert CountMod([NM1], Shiro) == 0 && CountMod([NM1], TB) == 0;
    assert CountMod(SLOTS[..2], Shiro) == 1 && CountMod(SLOTS[..2], TB) == 0;
  }

  lemma PoolHasSlot()
    ensures "NM1" in PoolOf(SLOTS) && PoolOf(SLOTS)["NM1"] == NM1
  {
    assert SLOTS[..2][..1] == [NM1] && SLOTS[..2] == [NM1, Slot("SHIRO", Shiro, Available)];
    assert "NM1" in PoolOf([NM1]) && PoolOf([NM1])["NM1"] == NM1;
    assert "NM1" in PoolOf(SLOTS[..2]) && PoolOf(SLOTS[..2])["NM1"] == NM1;
  }

  // ----- one more step

  /** Committed, and with a clock that never went back: a history a store can hold. */
  ghost predicate Played(r: Run) { Committed(r) && InOrder(r) && r.Step? && r.now > 0 }

  /** A referee's, strategist's or captain's own command that the gate lets through. */
  lemma Goes(r: Run, actor: Actor, command: Command, now: Time) returns (r': Run)
    requires Committed(r) && InOrder(r) && now > 0 && (r.Step? ==> r.now <= now)
    requires !IsProxy(command) && !G.Breaks(StateOf(r), command) && Direct(StateOf(r), actor, command, now).Some?
    ensures r' == Step(r, actor, command, now) && Played(r')
    ensures var s := Direct(StateOf(r), actor, command, now).value.state; StateOf(r') == s.(version := s.version + 1)
  {
    hide Direct, ValidateState, G.Breaks;
    r' := Step(r, actor, command, now);
    A.DirectIsExecuted(StateOf(r), actor, command, now);
    RunsGoOn(r, actor, command, now);
  }

  /** In play with nothing placed, banned or pending, and a timer started by the last step. */
  ghost predicate Untouched(r: Run, phase: Phase, turn: int) {
    && Played(r)
    && var s := StateOf(r);
       && RunningPhase(s, phase) && s.turn == turn
       && s.activeTeam == (if phase == Ban then BanTeam(Red, turn) else PickTeam(Red, turn))
       && s.config == Config(Red, Red, CONFIGURATION.rosters, TIMERS)
       && "NM1" in s.pool && s.pool["NM1"] == NM1 && s.board == map[]
       && s.pendingTB.None? && s.suspension.None?
       && s.timer == StartTimer(r.now, if phase == Ban then 60 else 90)
  }

  lemma Opening() returns (r: Run)
    ensures Untouched(r, Ban, FIRST_BAN_TURN)
  {
    hide ValidateState, Execute;
    ConfigurationIsValid();
    PoolHasSlot();
    r := Goes(Start(CONFIGURATION), REFEREE_ACTOR, StartMatch, 1);
  }

  lemma NotStalemated(s: State)
    requires "NM1" in s.pool && s.pool["NM1"] == NM1 && s.board == map[]
    ensures !Stalemated(s.pool, s.board)
  {
    assert LegalPlacement(s.pool, s.board, "NM1", Cell(0, 0));
  }

  /** Lets the action's time run out and skips it. */
  lemma SkippedBan(r: Run, turn: int) returns (r': Run)
    requires Untouched(r, Ban, turn) && FIRST_BAN_TURN <= turn <= FINAL_BAN_TURN
    ensures if turn < FINAL_BAN_TURN then Untouched(r', Ban, turn + 1) else Untouched(r', Pick, 1)
  {
    hide ValidateState, Execute, StateOf, Committed, G.Breaks, Stalemated;
    NotStalemated(StateOf(r));
    assert !IsSpace("-"[0]);
    SkippingIsFine(StateOf(r));
    r' := Goes(r, REFEREE_ACTOR, SkipCurrentAction("-"), r.now + 60);
  }

  lemma SkippingIsFine(s: State)
    ensures !G.Breaks(s, SkipCurrentAction("-"))
  {}

  lemma SkippedPick(r: Run, turn: int) returns (r': Run)
    requires Untouched(r, Pick, turn) && 1 <= turn < 14
    ensures Untouched(r', Pick, turn + 1)
  {
    hide ValidateState, Execute, StateOf, Committed, G.Breaks, Stalemated;
    NotStalemated(StateOf(r));
    assert !IsSpace("-"[0]);
    SkippingIsFine(StateOf(r));
    r' := Goes(r, REFEREE_ACTOR, SkipCurrentAction("-"), r.now + 90);
  }

  lemma AtPick(turn: int) returns (r: Run)
    requires 1 <= turn <= 14
    ensures Untouched(r, Pick, turn)
    decreases turn
  {
    hide Untouched;
    if turn == 1 {
      r := Opening();
      r := SkippedBan(r, FIRST_BAN_TURN);
      r := SkippedBan(r, SECOND_BAN_TURN);
      r := SkippedBan(r, THIRD_BAN_TURN);
      r := SkippedBan(r, FINAL_BAN_TURN);
    } else {
      r := AtPick(turn - 1);
      r := SkippedPick(r, turn - 1);
    }
  }

  const A1 := Cell(0, 0)

  /** The first pick has been made, and its result is awaited. */
  lemma Awaiting() returns (r: Run)
    ensures Played(r) && RunningPhase(StateOf(r), WaitingForResult) && StateOf(r).pendingPiece == "P1"
    ensures HasPiece(StateOf(r).board, "P1") && StateOf(r).config.rosters == CONFIGURATION.rosters
    ensures StateOf(r).timer == StartTimer(r.now, 20)
  {
    hide ValidateState, Execute, StateOf, Committed;
    var picking := AtPick(1);
    r := Goes(picking, StrategistActor(Red), PlacePiece("NM1", "P1", A1), picking.now);
    assert StateOf(r).board[A1].id == "P1";
  }

  /** And red has won it. */
  lemma Confirmed() returns (r: Run)
    ensures Played(r) && r.command == ConfirmBeatmapResult("P1", Red)
  {
    hide ValidateState, Execute, StateOf, Committed, HasFour, AdvancePick, HasPiece;
    var awaiting := Awaiting();
    r := Goes(awaiting, REFEREE_ACTOR, ConfirmBeatmapResult("P1", Red), awaiting.now);
  }

  // ----- accepted by the engine, refused by the store

  /** The step is accepted at a time the clock can show, and its result is not valid. */
  ghost predicate Refused(r: Run, actor: Actor, command: Command, now: Time) {
    && Played(r) && r.now <= now
    && Execute(StateOf(r), actor, command, now).Some?
    && !ValidateState(Execute(StateOf(r), actor, command, now).value.state)
  }

  lemma BreakingIsRefused(r: Run, actor: Actor, command: Command)
    requires Played(r) && !IsProxy(command) && G.Breaks(StateOf(r), command)
    requires Direct(StateOf(r), actor, command, r.now).Some?
    ensures Refused(r, actor, command, r.now)
  {
    hide Direct, ValidateState, G.Breaks, StateOf;
    RunIsValid(r);
    A.DirectIsExecuted(StateOf(r), actor, command, r.now);
    G.GateIsExact(StateOf(r), actor, command, r.now);
  }

  /** Turn 11, a captain asks for the tiebreaker, and the strategist places a piece. */
  lemma PlacingUnderARequestIsRefused() returns (r: Run)
    ensures r.Step? && Refused(r, StrategistActor(Red), PlacePiece("NM1", "P1", A1), r.now)
  {
    hide ValidateState, Execute, StateOf, Refused, Committed;
    var picking := AtPick(11);
    r := Goes(picking, CaptainActor(Red), RequestTB("T", CaptainAgreement), picking.now);
    BreakingIsRefused(r, StrategistActor(Red), PlacePiece("NM1", "P1", A1));
  }

  lemma AbortingAnAwaitedResultIsRefused() returns (r: Run)
    ensures r.Step? && Refused(r, REFEREE_ACTOR, AbortMatch("-"), r.now)
  {
    hide ValidateState, Execute, StateOf, Refused, Committed;
    r := Awaiting();
    assert !IsSpace("-"[0]);
    BreakingIsRefused(r, REFEREE_ACTOR, AbortMatch("-"));
  }

  lemma SurrenderingAnAwaitedResultIsRefused() returns (r: Run)
    ensures r.Step? && Refused(r, REFEREE_ACTOR, RecordSurrender(Red, [1, 2, 3, 4], "-"), r.now)
  {
    hide ValidateState, Execute, StateOf, Refused, Committed, SurrenderEvidence;
    r := Awaiting();
    assert !IsSpace("-"[0]);
    FourSurrender();
    BreakingIsRefused(r, REFEREE_ACTOR, RecordSurrender(Red, [1, 2, 3, 4], "-"));
  }

  lemma FourSurrender()
    ensures SurrenderEvidence(RED_ROSTER, [1, 2, 3, 4])
  {
    assert [1, 2, 3, 4][..3] == [1, 2, 3] && [1, 2, 3][..2] == [1, 2] && [1, 2][..1] == [1] && [1][..0] == [];
    assert Unique([1]) == [1] && Unique([1, 2]) == [1, 2] && Unique([1, 2, 3]) == [1, 2, 3];
    assert Unique([1, 2, 3, 4]) == [1, 2, 3, 4];
  }

  lemma CalibratingToNothingIsRefused() returns (r: Run)
    ensures r.Step? && Refused(r, REFEREE_ACTOR, CalibrateTimer(0, "-"), r.now)
  {
    hide ValidateState, Execute, StateOf, Refused, Committed;
    r := AtPick(1);
    assert !IsSpace("-"[0]);
    BreakingIsRefused(r, REFEREE_ACTOR, CalibrateTimer(0, "-"));
  }

  lemma CalibratingBeyondTheDurationIsRefused() returns (r: Run)
    ensures r.Step? && Refused(r, REFEREE_ACTOR, CalibrateTimer(91, "-"), r.now)
  {
    hide ValidateState, Execute, StateOf, Refused, Committed;
    r := AtPick(1);
    assert !IsSpace("-"[0]);
    r := Goes(r, REFEREE_ACTOR, PauseTimer("-"), r.now);
    BreakingIsRefused(r, REFEREE_ACTOR, CalibrateTimer(91, "-"));
  }

  lemma ResumingASpentTimerIsRefused() returns (r: Run)
    ensures r.Step? && Refused(r, REFEREE_ACTOR, ResumeTimer("-"), r.now)
  {
    hide ValidateState, Execute, StateOf, Refused, Committed;
    r := AtPick(1);
    assert !IsSpace("-"[0]);
    r := Goes(r, REFEREE_ACTOR, PauseTimer("-"), r.now + 90);
    BreakingIsRefused(r, REFEREE_ACTOR, ResumeTimer("-"));
  }

  lemma ResumingASpentMatchIsRefused() returns (r: Run)
    ensures r.Step? && Refused(r, REFEREE_ACTOR, ResumeMatch("-"), r.now)
  {
    hide ValidateState, Execute, StateOf, Refused, Committed;
    r := AtPick(1);
    assert !IsSpace("-"[0]);
    r := Goes(r, REFEREE_ACTOR, SuspendMatch("-"), r.now + 90);
    BreakingIsRefused(r, REFEREE_ACTOR, ResumeMatch("-"));
  }

  /** A pick's timer is paused when its time is up: a skip is accepted and committed, and the
      referee is not offered it. */
  lemma SpentPauseIsOverlooked() returns (r: Run, r': Run)
    ensures Played(r) && Played(r') && r' == Step(r, REFEREE_ACTOR, SkipCurrentAction("-"), r.now)
    ensures V.Overlooked(StateOf(r), L.ActSkip) && !L.RefereeListed(StateOf(r), r.now, L.ActSkip)
  {
    hide ValidateState, Execute, StateOf, Committed, Stalemated, AdvancePick;
    var picking := AtPick(1);
    assert !IsSpace("-"[0]);
    r := Goes(picking, REFEREE_ACTOR, PauseTimer("-"), picking.now + 90);
    SkippingIsFine(StateOf(r));
    r' := Goes(r, REFEREE_ACTOR, SkipCurrentAction("-"), r.now);
  }

  /** A result is awaited for twenty seconds, and then the match is suspended. */
  lemma MatchesCanStrand() returns (r: Run)
    ensures Played(r) && P.Stranded(StateOf(r))
    ensures forall now | now != 0 :: !P.CanGoOn(r, now)
  {
    hide ValidateState, Execute, StateOf, Committed, P.Stranded;
    var awaiting := Awaiting();
    assert !IsSpace("-"[0]);
    P.SuspendingStrandsExactly(awaiting, "-", awaiting.now + 20);
    r := Step(awaiting, REFEREE_ACTOR, SuspendMatch("-"), awaiting.now + 20);
    forall now | now != 0 ensures !P.CanGoOn(r, now) { P.RunsEndExactly(r, now); }
  }
}
