/** What whole matches owe to their commands (internal/matchengine/engine.go): who is to move,
    who may still rob or ask for time, and why a match has the winner it has. */
module Results {
  import opened MatchModel
  import opened BoardRules
  import opened Rules
  import opened Validation
  import opened Effects
  import opened Outcomes
  import opened Runs

  lemma StepDoes(r: Run)
    requires Committed(r) && r.Step?
    ensures var s, s', u := StateOf(r.before), StateOf(r), Underlying(r.command);
            && NetEffect(s, s', u)
            && Leaves(s, s', u, ActingTeam(r.actor, r.command), ActingTime(s, r.command, r.now))
  {
    hide ValidateState, Execute, NetEffect, Leaves, Story;
    RunIsValid(r.before);
    CommandsDo(StateOf(r.before), r.actor, r.command, r.now);
  }

  // ----- the tiebreaker's winner

  /** The confirmed team wins the tiebreaker, and nothing is played by that. */
  lemma ConfirmedTeamWinsTiebreaker(s: State, actor: Actor, team: Team, now: Time)
    requires ValidateState(s) && Execute(s, actor, ConfirmTBResult(team), now).Some?
    ensures var s' := Execute(s, actor, ConfirmTBResult(team), now).value.state;
            && s'.lifecycle == Finished && s'.ending.winner == Some(team) && s'.ending.result.Some?
            && s'.ending.result.value.winner == team && s'.ending.result.value.reason == TBResult
            && s'.board == s.board && s'.pool == s.pool
  {
    hide ValidateState, Execute;
    CommandsDo(s, actor, ConfirmTBResult(team), now);
  }

  // ----- whose turn it is

  function Origin(r: Run): Configuration { if r.Start? then r.config else Origin(r.before) }

  lemma {:induction false} ConfigurationStays(r: Run)
    requires Committed(r)
    ensures StateOf(r).config == Config(Origin(r).firstBan, Origin(r).firstPick, Origin(r).rosters, Origin(r).timers)
  {
    hide Execute, ValidateState;
    if r.Step? {
      ConfigurationStays(r.before);
      StepDoes(r);
    }
  }

  /** In every committed run the configured team bans first and last and its opponent twice in
      between, and the configured team makes the odd picks. */
  lemma TeamsTakeTurns(r: Run)
    requires Committed(r) && InPlay(StateOf(r))
    ensures var s, c := StateOf(r), Origin(r);
            && (s.phase == Ban ==> s.turn in {-3, -2, -1, 0})
            && (s.phase == Ban ==> s.activeTeam == if s.turn in {-3, 0} then c.firstBan else c.firstBan.Opponent())
            && (s.phase in {Pick, WaitingForResult} ==> s.turn >= 1)
            && (s.phase in {Pick, WaitingForResult} ==>
                  s.activeTeam == if s.turn % 2 == 1 then c.firstPick else c.firstPick.Opponent())
  {
    hide Execute, Committed;
    ConfigurationStays(r);
    RunIsValid(r);
    if r.Step? { StepDoes(r); }
  }

  // ----- what a team has used

  ghost predicate HasRobbed(r: Run, team: Team) {
    r.Step? && (HasRobbed(r.before, team) || (Underlying(r.command).RobPiece? && StateOf(r.before).activeTeam == team))
  }

  ghost function Grants(r: Run, team: Team): nat {
    if r.Start? then 0
    else
      Grants(r.before, team)
      + if r.command.GrantAdditionalTime? && StateOf(r.before).activeTeam == team then 1 else 0
  }

  /** A team's robbery is marked exactly if it has robbed, and a team gets additional time at
      most once in a match. */
  lemma {:induction false} UseIsRemembered(r: Run, team: Team)
    requires Committed(r)
    ensures Flag(StateOf(r).used.robbery, team) <==> HasRobbed(r, team)
    ensures Grants(r, team) == if Flag(StateOf(r).used.teamPause, team) then 1 else 0
  {
    hide Execute, ValidateState, NetEffect, Leads, Times, Asks, Enters, Suspends, Plays, Decides;
    if r.Step? {
      UseIsRemembered(r.before, team);
      StepDoes(r);
    }
  }

  // ----- why a team has won

  ghost predicate WonByTiebreaker(s: State, s': State, u: Command, team: Team) {
    u == ConfirmTBResult(team) && s.phase == TBPlaying && FinishedBy(s', TBResult) && s'.board == s.board
  }

  ghost predicate WonBySurrender(s': State, u: Command, team: Team) {
    u.RecordSurrender? && u.surrenderingTeam == team.Opponent() && FinishedBy(s', ResultReason.Surrender)
  }

  ghost predicate WonByLine(s: State, s': State, u: Command, team: Team) {
    && HasFour(s'.board, team) && !HasFour(s.board, team) && FinishedBy(s', FourAlignment)
    && ((u.RobPiece? && s.activeTeam == team) || (u.ConfirmBeatmapResult? && u.winningTeam == team))
  }

  ghost predicate WonByCount(s': State, team: Team) {
    && Stalemated(s'.pool, s'.board) && FinishedBy(s', StalemateWonCount)
    && WonCount(s'.board, team) > WonCount(s'.board, team.Opponent())
  }

  ghost predicate Earned(s: State, s': State, u: Command) {
    && InPlay(s) && s'.ending.winner.Some?
    && var team := s'.ending.winner.value;
       || WonByTiebreaker(s, s', u, team) || WonBySurrender(s', u, team)
       || WonByLine(s, s', u, team) || WonByCount(s', team)
  }

  lemma CountIsEarned(s': State)
    requires s'.lifecycle == Finished && WinsByCount(s') && Stalemated(s'.pool, s'.board)
    ensures s'.ending.winner.Some? && WonByCount(s', s'.ending.winner.value)
  {
    hide Stalemated, WonCount;
  }

  lemma FinishIsEarned(s: State, s': State, u: Command, team: Team)
    requires s'.lifecycle == Finished && NetEffect(s, s', u) && Leads(s, s', u) && Plays(s, s', u, team) && Decides(s, s', u)
    requires WinsByCount(s') ==> Stalemated(s'.pool, s'.board)
    requires InPlay(s) ==> !HasFour(s.board, Red) && !HasFour(s.board, Blue)
    ensures Earned(s, s', u)
  {
    hide HasFour, Stalemated, WinsByCount, WonByCount, BanMoves, PickMoves, RobberyAccepted, BoardAfterRobbery, SetOwner,
      ShiroAvailable, TheShiro, Plays, Firsts;
    if WinsByCount(s') { CountIsEarned(s'); }
  }

  // What the recovery checker has made sure of.
  lemma CountedIsStuck(s': State)
    requires ValidateState(s') && s'.lifecycle == Finished && WinsByCount(s')
    ensures Stalemated(s'.pool, s'.board)
  {
    hide ValidBoard, ValidPool, ValidConfig, Stalemated, WonCount;
  }

  lemma InPlayNobodyHasFour(s: State)
    requires FourMeansOver(s) && InPlay(s)
    ensures !HasFour(s.board, Red) && !HasFour(s.board, Blue)
  {
    hide HasFour;
  }

  /** A finished match has its winner by its last command: the team confirmed in the tiebreaker,
      the opponent of a team that surrenders, the team that makes the first four, or the team
      with more WON pieces when nothing can be placed. */
  lemma EveryWinnerIsEarned(r: Run)
    requires Committed(r) && StateOf(r).lifecycle == Finished
    ensures r.Step? && Earned(StateOf(r.before), StateOf(r), Underlying(r.command))
  {
    hide Execute, StateOf, ReadyState, ValidateState, NetEffect, Leads, Times, Asks, Enters, Suspends, Plays, Spends,
      Decides, WinsByCount, Stalemated, HasFour, Earned, FourMeansOver;
    if r.Start? { ReadyIsReady(r); assert false; }
    RunIsValid(r);
    StepDoes(r);
    FourEndsTheMatch(r.before);
    if InPlay(StateOf(r.before)) { InPlayNobodyHasFour(StateOf(r.before)); }
    if WinsByCount(StateOf(r)) { CountedIsStuck(StateOf(r)); }
    FinishIsEarned(StateOf(r.before), StateOf(r), Underlying(r.command), ActingTeam(r.actor, r.command));
  }

  lemma ReadyIsReady(r: Run)
    requires r.Start?
    ensures StateOf(r).lifecycle == Ready
  {}
}
