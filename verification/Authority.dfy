/** The referee's own commands (internal/matchengine/engine.go 81-104, 436-663, 780-926) against
    the surface that offers them (internal/matchengine/availability.go 208-298). */
module Authority {
  import opened MatchModel
  import opened BoardRules
  import opened Rules
  import opened Validation
  import opened Availability
  import A = Acceptance
  import opened Robbery

  predicate RefereesOwn(command: Command) {
    !IsProxy(command) && !command.BanPoolSlot? && !command.PlacePiece? && !command.PlaceShiro? && !command.RobPiece?
    && !command.RequestTB? && !command.RespondTBRequest? && !command.OtherCommand?
  }

  /** Only the start can also come from the system. */
  predicate MayCommand(actor: Actor, command: Command) {
    actor.capability == Referee || (command.StartMatch? && actor.adminOverride)
  }

  /** A timer paused when nothing was left of it: the surface neither offers more time nor a skip. */
  predicate Overlooked(s: State, action: Action) {
    && s.lifecycle == Running && s.timer.paused && s.timer.remainingAtPause == 0
    && ((action == ActSkip && s.phase in {Ban, Pick})
        || (action == ActGrant && s.phase in {Ban, Pick, WaitingForResult} && !Flag(s.used.teamPause, s.activeTeam)))
  }

  predicate Reasoned(reason: string) { exists i :: 0 <= i < |reason| && !IsSpace(reason[i]) }

  /** Four different participants of the team confirm its surrender, its leader among them. */
  predicate FourConfirm(roster: Roster, submitted: seq<int>) {
    && (forall x | x in submitted :: x == roster.leader || x in roster.players)
    && roster.leader in submitted && |set x | x in submitted| >= 4
  }

  predicate ArgumentsFit(s: State, command: Command, now: Time) {
    match command
    case StartMatch => true
    case CalibrateTimer(remaining, reason) => remaining >= 0 && Reasoned(reason)
    case StartTB(reason) => s.timer.Remaining(now) > 0 || Reasoned(reason)
    case ConfirmTBResult(team) => team == Red || team == Blue
    case ConfirmBeatmapResult(pieceId, team) => pieceId == s.pendingPiece && (team == Red || team == Blue)
    case RecordSurrender(team, submitted, reason) =>
      && (team == Red || team == Blue) && Reasoned(reason)
      && team in s.config.rosters && FourConfirm(s.config.rosters[team], submitted)
    case GrantAdditionalTime(reason) => Reasoned(reason)
    case PauseTimer(reason) => Reasoned(reason)
    case ResumeTimer(reason) => Reasoned(reason)
    case SuspendMatch(reason) => Reasoned(reason)
    case ResumeMatch(reason) => Reasoned(reason)
    case SkipCurrentAction(reason) => Reasoned(reason)
    case AbortMatch(reason) => Reasoned(reason)
    case _ => false
  }

  lemma {:induction false} UniqueCounts(submitted: seq<int>)
    ensures |Unique(submitted)| == |set x | x in submitted|
    ensures forall x :: x in Unique(submitted) <==> x in submitted
  {
    if submitted != [] {
      var front, last := submitted[..|submitted| - 1], submitted[|submitted| - 1];
      UniqueCounts(front);
      assert (set x | x in submitted) == (set x | x in front) + {last};
      if last in front { assert (set x | x in submitted) == set x | x in front; }
    }
  }

  lemma EvidenceIsFour(roster: Roster, submitted: seq<int>)
    ensures SurrenderEvidence(roster, submitted) <==> FourConfirm(roster, submitted)
  {
    UniqueCounts(submitted);
    if SurrenderEvidence(roster, submitted) {
      forall x | x in submitted ensures x == roster.leader || x in roster.players {
        var i :| 0 <= i < |submitted| && submitted[i] == x;
        assert Rostered(roster, submitted[i]);
      }
    }
  }

  /** What a valid state offers the proofs. */
  predicate Standing(s: State) {
    && ValidTurnAndTimer(s) && ValidLifecycle(s) && Red in s.config.rosters && Blue in s.config.rosters
  }

  lemma ValidIsStanding(s: State)
    requires ValidateState(s)
    ensures Standing(s)
  {
    hide TBIsForced, ValidBoard, ValidPool, Stalemated;
  }

  lemma SurrenderExactly(s: State, actor: Actor, team: Team, submitted: seq<int>, reason: string, now: Time)
    requires Standing(s) && now != 0
    ensures DoSurrender(s, actor, team, submitted, reason).Some?
       <==> actor.capability == Referee && RefereeListed(s, now, ActSurrender)
            && ArgumentsFit(s, RecordSurrender(team, submitted, reason), now)
  {
    hide SurrenderEvidence, FourConfirm;
    EvidenceIsFour(RosterOf(s.config.rosters, team), submitted);
  }

  lemma ClockExactly(s: State, actor: Actor, command: Command, action: Action, now: Time)
    requires Standing(s) && now != 0
    requires ActionOf(command) == Some(action)
    requires command.GrantAdditionalTime? || command.CalibrateTimer? || command.PauseTimer? || command.ResumeTimer?
          || command.SuspendMatch? || command.ResumeMatch?
    ensures Direct(s, actor, command, now).Some?
       <==> actor.capability == Referee && ArgumentsFit(s, command, now)
            && (RefereeListed(s, now, action) || Overlooked(s, action))
  {
    hide DoStartMatch, DoBan, DoPlacePiece, DoPlaceShiro,
      DoRob, DoSkip, DoAbort, DoRequestTB, DoRespondTB, DoStartTB, DoConfirmTB, DoSurrender, DoConfirmResult;
  }

  lemma SkipExactly(s: State, actor: Actor, reason: string, now: Time)
    requires Standing(s) && now != 0
    ensures DoSkip(s, actor, reason, now).Some?
       <==> actor.capability == Referee && Reasoned(reason) && (RefereeListed(s, now, ActSkip) || Overlooked(s, ActSkip))
  {
    hide AdvanceBan, AdvancePick;
  }

  lemma PhaseExactly(s: State, actor: Actor, command: Command, action: Action, now: Time)
    requires Standing(s) && now != 0
    requires ActionOf(command) == Some(action)
    requires command.StartMatch? || command.AbortMatch? || command.StartTB? || command.ConfirmTBResult?
    ensures Direct(s, actor, command, now).Some?
       <==> MayCommand(actor, command) && ArgumentsFit(s, command, now) && RefereeListed(s, now, action)
  {
    hide DoBan, DoPlacePiece, DoPlaceShiro, DoRob, DoSkip,
      DoGrant, DoCalibrate, DoPause, DoResume, DoSuspend, DoResumeMatch, DoRequestTB, DoRespondTB, DoSurrender,
      DoConfirmResult;
  }

  lemma ConfirmExactly(s: State, actor: Actor, pieceId: Id, team: Team, now: Time)
    requires ValidateState(s) && now != 0
    ensures DoConfirmResult(s, actor, pieceId, team, now).Some?
       <==> actor.capability == Referee && RefereeListed(s, now, ActConfirmResult)
            && ArgumentsFit(s, ConfirmBeatmapResult(pieceId, team), now)
  {
    hide ValidateState, HasPiece, HasFour, SetOwner, AdvancePick;
    if s.lifecycle == Running { RunningHasPhase(s); }
  }

  /** In every valid state and for every actor, a referee's own command is accepted exactly if a
      referee sends it, its arguments fit and the surface offers its action. The one exception:
      of a timer that was paused with nothing left, the surface offers neither more time nor a
      skip, and both are accepted. */
  lemma RefereeCommandsAreExact(s: State, actor: Actor, command: Command, action: Action, now: Time)
    requires ValidateState(s) && now != 0 && RefereesOwn(command) && ActionOf(command) == Some(action)
    ensures Execute(s, actor, command, now).Some?
       <==> MayCommand(actor, command) && ArgumentsFit(s, command, now)
            && (RefereeListed(s, now, action) || Overlooked(s, action))
  {
    hide ValidateState, Execute, RefereeListed, Standing, DoStartMatch, DoGrant, DoCalibrate, DoPause, DoResume,
      DoSuspend, DoResumeMatch, DoSkip, DoAbort, DoStartTB, DoConfirmTB, DoSurrender, DoConfirmResult, FourConfirm;
    ValidIsStanding(s);
    A.DirectIsExecuted(s, actor, command, now);
    match command
    case SkipCurrentAction(reason) => SkipExactly(s, actor, reason, now);
    case RecordSurrender(team, submitted, reason) => SurrenderExactly(s, actor, team, submitted, reason, now);
    case ConfirmBeatmapResult(pieceId, team) => ConfirmExactly(s, actor, pieceId, team, now);
    case StartMatch => PhaseExactly(s, actor, command, action, now);
    case AbortMatch(_) => PhaseExactly(s, actor, command, action, now);
    case StartTB(_) => PhaseExactly(s, actor, command, action, now);
    case ConfirmTBResult(_) => PhaseExactly(s, actor, command, action, now);
    case _ => ClockExactly(s, actor, command, action, now);
  }

  lemma ActingIsOffered(s: State, command: Command, action: Action, now: Time)
    requires ValidateState(s) && now != 0 && ActionOf(command) == Some(action) && IsStrategistProxy(command)
    requires Execute(s, REFEREE_ACTOR, command, now).Some?
    ensures RefereeListed(s, now, action)
  {
    hide ValidateState, Execute, FreshPieceId, Planned, Reordered, BanListed, PlacementListed, ShiroCellListed, Direct;
    match command
    case RefereeBanPoolSlot(team, id, reason) => RefereeListsAreExact(s, REFEREE_ACTOR, team, id, Cell(0, 0), "", reason, now);
    case RefereePlacePiece(team, id, pieceId, c, reason) => RefereeListsAreExact(s, REFEREE_ACTOR, team, id, c, pieceId, reason, now);
    case RefereePlaceShiro(team, pieceId, c, reason) => RefereeListsAreExact(s, REFEREE_ACTOR, team, "", c, pieceId, reason, now);
    case RefereeRobPiece(team, target, sets, reason) =>
      RefereePlansAreExact(s, REFEREE_ACTOR, team, target, sets, reason, now);
      OpenPickHasTeam(s);
  }

  lemma AnsweringIsOffered(s: State, command: Command, action: Action, now: Time)
    requires ValidateState(s) && now != 0 && ActionOf(command) == Some(action) && IsCaptainProxy(command)
    requires Execute(s, REFEREE_ACTOR, command, now).Some?
    ensures RefereeListed(s, now, action)
  {
    hide ValidateState, Execute, Direct, BanListed, PlacementListed, ShiroCellListed, PlanListed;
    match command
    case RefereeRequestTB(team, id, basis, reason) => RefereeTBListsAreExact(s, REFEREE_ACTOR, team, id, basis, false, reason, now);
    case RefereeRespondTBRequest(team, id, accept, reason) =>
      RefereeTBListsAreExact(s, REFEREE_ACTOR, team, id, CaptainAgreement, accept, reason, now);
  }

  /** Nothing a referee can do is missing from the surface, except what it overlooks. */
  lemma RefereeSurfaceIsComplete(s: State, command: Command, action: Action, now: Time)
    requires ValidateState(s) && now != 0 && ActionOf(command) == Some(action)
    requires Execute(s, REFEREE_ACTOR, command, now).Some?
    ensures RefereeListed(s, now, action) || Overlooked(s, action)
  {
    hide ValidateState, Execute, RefereeListed;
    if RefereesOwn(command) {
      RefereeCommandsAreExact(s, REFEREE_ACTOR, command, action, now);
    } else if IsStrategistProxy(command) {
      ActingIsOffered(s, command, action, now);
    } else if IsCaptainProxy(command) {
      AnsweringIsOffered(s, command, action, now);
    } else {
      RefereeIsNoPlayer(s, command, now);
    }
  }

  lemma OpenPickHasTeam(s: State)
    requires ValidateState(s)
    ensures RunningPhase(s, Pick) ==> s.activeTeam.Valid()
  {}

  lemma RefereeIsNoPlayer(s: State, command: Command, now: Time)
    requires command.BanPoolSlot? || command.PlacePiece? || command.PlaceShiro? || command.RobPiece?
          || command.RequestTB? || command.RespondTBRequest?
    ensures Execute(s, REFEREE_ACTOR, command, now).None?
  {}
}
