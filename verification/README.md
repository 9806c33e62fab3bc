# Match engine and commit protocol: models and proofs

The repository runs formal osu! matches on a 4x4 board. Two teams ban and pick beatmaps from a
pool, claim cells with them, rob each other's pieces and try to align four. A deterministic
rules engine decides every command; a store commits its results with a receipt, an action log
and an event outbox; a gateway streams the events; publishers turn them into IRC jobs; workers
send the jobs; referees confirm results from IRC evidence. This project models that and proves
what the parts are for.

The match itself comes in two forms. `MatchModel`, `Rules` and `Validation` state the engine's
commands and the recovery checker on values. `PlayingBoards`, `RobberySearch`, `Analyses`,
`MatchAggregate`, `Recovery` and `ActorSurface` carry them out as the source does, on a mutable
aggregate with loops, counters and early returns, and are proved to compute exactly those values.
The laws are proved about the values:

- `Outcomes` says what an accepted command leaves of every part of the state, and what its events
  tell; `Results` says what follows for whole matches, for instance why a match has its winner.
- `Authority` and `Availability` say whose commands are accepted, and with which arguments: what
  the surfaces offer.
- `GateExactness` says for which accepted commands the store refuses to commit the result, and
  `Integrity` what else the recovery check catches.
- `Robbery` says that the three independent robbery searches agree, and `BoardCells` what lines and
  robberies are, cell by cell.
- `Runs`, `Conservation`, `Progress` and `TimerLaw` are about whole matches: every run from the
  ready state whose steps are accepted by the engine and pass the recovery check.

There are such runs: every valid configuration starts one (`Runs.ReadyIsValid`),
`Progress.RunsEndExactly` continues every run whose match is neither over nor stranded, and
`StoredRuns` shows that exactly those whose clock never goes back can be a stored history.
`Scenarios` plays some of them out.

Each protocol is a step relation over shared documents, with any number of participants that may
stop between any two of their steps, and a class whose methods carry out the source's operations
and record the steps they take: `CommandProtocol` and `CommandStores`, `Gateway` and
`GatewayLoop`, `Publisher` and `PublisherLoop`, `IrcJobs` and `JobQueues`, `IrcReview` and
`ReviewDesk`, `CacheFill` and `CacheFetcher`. `JobDispatch` puts the publishers and the job queue
together; `JobPaths`, `JobFlights` and `FlightRuns` say when a match has one job in flight.
`ReviewScenario` and `DispatchScenario` are concrete runs. A third group, `PoolSlots`, `Mappool` and
`EngineSlots`, follows a mappool into engine slots and back to its beatmaps.

`dafny verify dfyconfig.toml` checks the whole project.

## What does not hold

These promises do not hold of the code as it stands; each has its exact condition and a concrete run.

- An accepted command need not be committable. Placing a piece while a TB request is pending,
  aborting or recording a surrender while a result is awaited, calibrating a running timer to 0 or
  a paused one beyond its duration, and resuming a timer (or a match whose timer ran) with nothing
  left are accepted by the engine and refused by the store's recovery check.
  `GateExactness.Breaks` lists them, `GateExactness.GateIsExact` shows the list to be complete
  and without excess, and `Scenarios` plays a match up to each of them.
- A match can come to a standstill that is not an end. Suspended while a result is awaited, after
  the time for its confirmation ran out, it can be neither resumed, aborted, surrendered nor
  confirmed; every such command is refused by the engine or by the recovery check.
  `Progress.RunsEndExactly` shows that these are the only standstills besides the ended matches,
  and `Scenarios.MatchesCanStrand` plays a match into one.
- The referee's surface does not offer everything Execute accepts: of a timer that was paused with
  nothing left, neither additional time nor a skip is offered, and both are accepted. It is the one
  exception (`Authority.RefereeCommandsAreExact`, `Authority.RefereeSurfaceIsComplete`);
  `Scenarios.SpentPauseIsOverlooked` is a run that commits a skip that was not offered.
- A cached value can be stale although every fill is shorter than the generation key's lifetime:
  a fill that begins before the key expires and ends after it sees the count start over.
  `CacheFill.ShortFillsCanGoStale` builds the run and `CacheFill.FreshnessIsExact` gives the condition.
- An IRC observation can be confirmed for a match that committed no such result. The claims that
  may be made are safe if and only if no observation has two of them with the same command id and
  verdict of which one is committed and the other is not (`IrcReview.EvidenceIsSafeExactly`). It
  takes two matches whose rooms are linked to the same channel at some time, which setting the
  link does not forbid (internal/service/room_service.go 272-284). If every channel belongs to one
  match, or every command id to one, the evidence is safe (`IrcReview.OwnChannelsAreSafe`,
  `IrcReview.ConfirmedMeansCommitted`).
  `ReviewScenario.SharedCommandIdConfirmsWrongly` is a run that goes wrong.
- Two IRC jobs of a match can be in flight at once. The queue sends a job when every earlier one
  of its channel is done, by sequence and then by the moment of insertion. The jobs of one event
  share its sequence, and the invitations of a match can be inserted within the same millisecond.
  Jobs on different channels do not wait for each other, and a room's link may be changed between
  two events of a running match (internal/service/room_service.go 272-284), while planning reads
  it anew for each event. Take any plan that gives the same jobs each time an event is planned, and
  for each job the channel and the time it is inserted with. All runs keep at most one job of each
  match in flight if and only if, among the events that can be planned together with all events
  before them, the jobs of a match have one channel and the jobs of an event have strictly
  increasing times, in plan order (`FlightRuns.OneInFlightExactly`). Other matches on the channel
  do no harm to this. Even if plans change, a run is safe as long as the jobs of each match are
  inserted that way (`JobFlights.OneJobOfAMatchInFlight`).
  `DispatchScenario.TiesPutTwoInFlight` and `DispatchScenario.MovedLinkPutsTwoInFlight` are runs in
  which two are in flight.
- The queue of a channel need not grow at its end only, on which the laws of `IrcJobs` rest: a later
  match linked to the same channel starts again at low sequences, and jobs of one event can tie. It
  does exactly if the jobs of each channel are inserted in order of sequence and time
  (`JobDispatch.QueueIsOrderlyExactly`); where plans are stable and every match keeps a channel of
  its own, exactly if the jobs of an event are inserted at strictly increasing times
  (`JobDispatch.OwnChannelsOnlyTick`). `DispatchScenario.TiesPutTwoInFlight` is a run where it does not.

## Model

| member | source | states |
|---|---|---|
| `MatchModel.Timer.Remaining` | internal/matchengine/model.go:150-165 | a running timer shows its full duration before it starts, what is left of it while it lasts and nothing after; no timer of a duration that is not negative shows less than nothing |
| `MatchModel.PicksAlternate` | internal/matchengine/engine.go:1062-1067 | the first pick is the configured team's, and from then on the teams take turns |
| `MatchModel.SpacesAreListed` | internal/matchengine/engine.go:874-876 | the white space of which a missing reason consists is exactly the twenty-five code points that trimming removes |
| `BoardRules.CellTextsRoundTrip` | internal/matchengine/board.go:254-268 | the sixteen cell texts, a column letter A to D and a row digit 1 to 4, and the sixteen board positions are in bijection |
| `BoardRules.FindAlignmentsIsExact` | internal/matchengine/board.go:177-211 | the scan reports an alignment at a start and direction exactly when that line lies on the board and every cell of it is a WON piece of the team |
| `BoardCells.AlignmentsAreRows` | internal/matchengine/board.go:177-252 | what the alignment checks accept are rows of WON pieces one cell after another in any of the eight directions, whatever the order of the ids |
| `BoardCells.FourIsARow` | internal/matchengine/board.go:171-173 | four aligned means a row of four of the team's WON pieces |
| `PlayingBoards.PlayingBoard.Place` | internal/matchengine/board.go:122-124 | placing changes that one cell and no other |
| `PlayingBoards.PlayingBoard.SetOwner` | internal/matchengine/board.go:126-137 | finds the piece exactly when the id is on the board, and makes that piece WON by the team while every other piece stays |
| `PlayingBoards.PlayingBoard.MarkDead` | internal/matchengine/board.go:148-160 | after the loop exactly the pieces with a listed id are DEAD and all others are as before |
| `PlayingBoards.PlayingBoard.PieceById` | internal/matchengine/board.go:139-146 | answers nothing exactly when no piece has the id, and otherwise a cell that holds it |
| `PlayingBoards.PlayingBoard.FindAlignments` | internal/matchengine/board.go:177-211 | the nested loops list every alignment of the length, row by row, column by column and in the four directions |
| `PlayingBoards.PlayingBoard.FourAligned` | internal/matchengine/board.go:171-173 | holds exactly when four of the team's WON pieces stand in one line |
| `PlayingBoards.PlayingBoard.IsAligned` | internal/matchengine/board.go:213-240 | accepts a list of ids exactly when they are distinct, non-empty, of the wanted number and the ids of one alignment, in any order |
| `PlayingBoards.PlayingBoard.ParticipatesIn` | internal/matchengine/board.go:242-252 | holds exactly when some alignment of that length contains the piece |
| `Acceptance.DirectIsExecuted` | internal/matchengine/engine.go:70-79 | the rule against successful commands without events never rejects anything: Execute accepts exactly what the handler accepts |
| `GateExactness.GateIsExact` | internal/matchengine/validation.go:11-43 | from every valid state, for every actor, command and non-zero time, an accepted result passes ValidateState if and only if the step is none of the listed exceptions |
| `Integrity.PhaseIsBound` | internal/matchengine/validation.go:45-105 | of a valid state with another phase or another team to move none is valid |
| `Integrity.PiecesAreBound` | internal/matchengine/validation.go:199-265 | the check catches a lost piece, an invented one, and one that does not go with its cell, its slot or the other pieces |
| `Integrity.SlotsAreBound` | internal/matchengine/validation.go:167-197 | the check catches slots marked played or unplayed, turned into or out of Shiro or TB, or wrongly banned |
| `Integrity.TimerIsBound` | internal/matchengine/validation.go:107-128 | the check catches every timer that does not go with its phase, its duration or its pause |
| `Integrity.PendingIsBound` | internal/matchengine/validation.go:350-434 | the check catches another awaited piece, a request out of its window and a tiebreaker entry out of place |
| `Integrity.EndIsBound` | internal/matchengine/validation.go:267-434 | the check catches results of matches that are not finished, winners that differ from the result, and a four, a surrender or a majority that is not there |
| `Integrity.RecordIsBound` | internal/matchengine/validation.go:11-43 | the check catches missing and misplaced versions, suspensions and entitlements |
| `Runs.SelectedMatchPieces` | internal/matchengine/validation.go:199-256 | a corollary of the gate and no law of its own: what the recovery check lets pass has SELECTED slots and pieces in bijection |
| `GateExactness.VersionOnlyGrows` | internal/matchengine/engine.go:77-78 | every accepted command raises the version by exactly one |
| `GateExactness.EnterPickIsValid` | internal/matchengine/engine.go:928-969 | whichever way a pick begins (a timer, a forced tiebreaker, a stalemate decided by count or referred to adjudication), the state it leaves is valid |
| `GateExactness.RobExact` | internal/matchengine/engine.go:287-349 | an accepted robbery always leaves a valid state |
| `GateExactness.SkipExact` | internal/matchengine/engine.go:582-642 | an accepted skip always leaves a valid state, also when the match was suspended before it and is again after it |
| `GateExactness.SurrenderExact` | internal/matchengine/engine.go:819-846 | a recorded surrender leaves a valid state exactly when no result was awaited |
| `Scenarios.PlacingUnderARequestIsRefused` | internal/matchengine/engine.go:164-214 | a played match in which a captain has asked for the tiebreaker, where the engine accepts a placement and the result is not valid |
| `Scenarios.AbortingAnAwaitedResultIsRefused` | internal/matchengine/engine.go:644-663 | a played match awaiting a result, where the engine accepts an abort and the result is not valid |
| `Scenarios.SurrenderingAnAwaitedResultIsRefused` | internal/matchengine/engine.go:819-846 | the same with a surrender confirmed by four rostered players |
| `Scenarios.CalibratingToNothingIsRefused` | internal/matchengine/engine.go:477-496 | a played match with a running timer, where the engine accepts a calibration to 0 and the result is not valid |
| `Scenarios.CalibratingBeyondTheDurationIsRefused` | internal/matchengine/engine.go:477-496 | a played match with a paused timer, where the engine accepts more than its duration and the result is not valid |
| `Scenarios.ResumingASpentTimerIsRefused` | internal/matchengine/engine.go:518-533 | a played match whose timer was paused when its time was up, where the engine accepts a resume and the result is not valid |
| `Scenarios.ResumingASpentMatchIsRefused` | internal/matchengine/engine.go:560-580 | a played match suspended when its time was up, where the engine accepts a resume and the result is not valid |
| `Robbery.RobPieceMatchesPlans` | internal/matchengine/availability.go:309-358 | RobPiece accepts a target and sacrifice sets if and only if robberyPlans lists that target with those sets up to the order of the sets and of the ids in them |
| `Robbery.SearchMatchesPlans` | internal/matchengine/engine.go:398-434 | the forced-tiebreaker search finds a legal robbery if and only if robberyPlans is not empty |
| `Robbery.ThreeDecidersAgree` | internal/matchengine/engine.go:287-434 | in every valid running pick with a live timer the command, the listed plans and the forced-tiebreaker search decide alike |
| `BoardCells.RobberiesByCell` | internal/matchengine/engine.go:287-396 | for every actor a robbery is accepted exactly if the active strategist pays two in a row for the Shiro, into a row of two, or three in a row or twice two for a piece of the opponent, into a row of three; then the target is the team's, what was paid is dead and every other piece stays |
| `RobberySearch.FlattenSacrificeSets` | internal/matchengine/engine.go:362-375 | reports an overlap exactly when some id occurs twice, and otherwise all ids in order |
| `RobberySearch.BoardAfter` | internal/matchengine/engine.go:387-394 | tries the robbery on a copy, reports whether the target then lies in an alignment of the length, and leaves the board as it was |
| `RobberySearch.CanRob` | internal/matchengine/engine.go:398-434 | the early-exit search over targets, triples and pairs finds a robbery exactly when one exists |
| `RobberySearch.RobberyPlans` | internal/matchengine/availability.go:309-358 | the collected plans are exactly the planned target and sacrifice combinations: none is missed and none is invented |
| `Analyses.Analyze` | internal/matchengine/availability.go:75-131 | lists exactly the selectable slots, the empty cells, each slot's legal cells and the possible placements: Shiro and NM and FM anywhere, HD, HR and DT in their quarters of the board, with the quarter's Force Mod for FM; counts each team's WON pieces, and reports a stalemate exactly when nothing can be placed |
| `Availability.StrategistListsAreExact` | internal/matchengine/availability.go:157-191 | in every valid state the bans, placements and Shiro cells Execute accepts, of whatever actor, are exactly those listed for an active strategist, with a fresh piece id |
| `Availability.PlacedForceIsListed` | internal/matchengine/engine.go:1027-1060 | a placed piece lies where its mod may lie and carries the Force Mod of that quarter, as listed |
| `Availability.StrategistPlansAreExact` | internal/matchengine/availability.go:184-190 | the listed robberies are exactly the accepted ones, up to reordering |
| `Availability.FreshPieceIdExists` | internal/matchengine/engine.go:171-177 | a fresh piece id always exists, so the exactness of the lists never holds for lack of one |
| `Availability.RefereeSurfaceIsSound` | internal/matchengine/availability.go:208-298 | in every valid state each action listed for the referee, except recording a surrender, has a command that Execute accepts |
| `Availability.RefereeListsAreExact` | internal/matchengine/availability.go:239-269 | in every valid state the bans, placements and Shiro cells accepted on behalf of a team are exactly those listed for the referee, for the active team, from a referee who gives a reason |
| `Availability.RefereePlansAreExact` | internal/matchengine/availability.go:270-275 | the robberies listed for a referee are exactly those accepted from one who gives a reason, up to reordering |
| `Availability.RefereeTBListsAreExact` | internal/matchengine/availability.go:276-287 | a request on behalf of a team is accepted exactly for the listed teams, with an id and by agreement, and an answer exactly for the listed team and the pending request |
| `ActorSurface.AnalyzeStrategist` | internal/matchengine/availability.go:157-191 | the lists collected for a strategist hold exactly the listed bans, placements, Shiro cells and plans, are empty when it is not the strategist's turn, and an action is offered exactly when its list is not empty |
| `ActorSurface.CaptainSurfaceIsExact` | internal/matchengine/availability.go:192-205 | a request or an answer is accepted exactly from a captain who is offered one, with an id and by agreement, or to the pending request |
| `Authority.RefereeCommandsAreExact` | internal/matchengine/availability.go:208-298 | a referee's own command is accepted exactly if a referee sends it (the start also from the system), its arguments fit and the surface offers its action, except that a timer paused with nothing left can still be skipped or extended |
| `Authority.RefereeSurfaceIsComplete` | internal/matchengine/availability.go:208-298 | whatever Execute accepts from a referee, for itself or for a team, is of an action the surface offers, with the same exception |
| `Scenarios.SpentPauseIsOverlooked` | internal/matchengine/availability.go:208-238 | a played match that commits a skip which the referee was not offered |
| `ActorSurface.AnalyzeReferee` | internal/matchengine/availability.go:208-298 | the actions collected over lifecycle, phase and timer are exactly the listed ones, and so are the bans, placements, Shiro cells, plans, request and response teams and the pending request |
| `ActorSurface.AnalyzeForActor` | internal/matchengine/availability.go:136-206 | each capability gets its own surface: a strategist and a referee their exact lists and actions, a captain the exact actions with the request to answer and nothing else, any other capability nothing |
| `Effects.ExecuteShows` | internal/matchengine/engine.go:10-79 | every accepted command has one of the few listed effects on pool, board, turn and phase, whichever actor or proxy sent it |
| `Outcomes.CommandsDo` | internal/matchengine/engine.go:10-995 | every accepted command, by whomever it is sent, leaves lifecycle, phase, turn order, timer, request, tiebreaker entry, suspension, pieces, entitlements and result as one law for each says, and emits exactly the events that tell the difference |
| `Outcomes.ProxiesActForTeams` | internal/matchengine/engine.go:750-778 | a referee who acts for a team with a reason does exactly what its strategist or captain would have done, at the start of a time that is up, and it is recorded; without a reason or a team nothing is accepted |
| `Results.ConfirmedTeamWinsTiebreaker` | internal/matchengine/engine.go:801-817 | an accepted confirmation of a tiebreaker finishes the match with that team as winner and leaves board and pool alone |
| `Results.EveryWinnerIsEarned` | internal/matchengine/engine.go:780-995 | in every committed run a finished match has its winner by its last command: confirmed in the tiebreaker, by the opponent's surrender, by the first four, or by more WON pieces when nothing can be placed |
| `Results.TeamsTakeTurns` | internal/matchengine/engine.go:1062-1067 | in every committed run the configured team bans first and last and its opponent twice in between, and the configured team has the odd picks |
| `Results.UseIsRemembered` | internal/matchengine/engine.go:287-475 | in every committed run a robbery is marked exactly for the teams that have robbed, and a team gets additional time at most once |
| `Runs.ReadyIsValid` | internal/matchengine/model.go:358-413 | NewReadyState only builds states that the recovery checker accepts |
| `Runs.ReadyHoldsSlots` | internal/matchengine/model.go:358-413 | a match starts with the configured slots under their ids and mods, all available, and an empty board |
| `Runs.RunsGoOn` | internal/persistence/snapshot_store.go:276-300 | a committed run goes on with a step exactly when Execute accepts it and it is none of the exceptions |
| `Runs.FourEndsTheMatch` | internal/matchengine/engine.go:339-344 | in every committed run a team has four aligned WON pieces if and only if the match is FINISHED with FOUR_ALIGNMENT and that winner |
| `Runs.NeverTwoFours` | internal/matchengine/engine.go:892-926 | no committed run ever shows four aligned pieces for both teams |
| `Runs.PicksMakeProgress` | internal/matchengine/engine.go:928-982 | in every committed run a pick in play is no stalemate; with a live timer some placement is accepted; from turn 15 some team that has not robbed still has a legal robbery |
| `Runs.TurnsAreAccounted` | internal/matchengine/validation.go:45-105 | turn, pieces, skipped picks, banned slots and skipped bans add up in every phase of every committed run |
| `Conservation.StepCounts` | internal/matchengine/engine.go:106-434 | every ban, placement, confirmation and robbery strictly lowers the measure over available slots, empty cells and unsettled pieces, and no other command changes it |
| `Conservation.PlayIsBounded` | internal/matchengine/engine.go:106-434 | a committed run has at most as many bans, placements, confirmations and robberies as there are slots plus 48 |
| `Conservation.RobberiesAreBounded` | internal/matchengine/engine.go:287-349 | with s robberies of the Shiro and o of an opponent's piece, s is at most 1 and 2s + 3o at most 14 in every committed run |
| `Conservation.NothingIsTakenBack` | internal/matchengine/board.go:122-160 | along every committed run pieces never leave their cell, change their source or come back from DEAD, and BANNED and SELECTED slots stay so |
| `Progress.RunsEndExactly` | internal/matchengine/engine.go:10-79 | in every committed run some command can be committed next if and only if the match is neither over nor stranded: suspended while a result is awaited, with a timer to resume and nothing left on it |
| `Progress.SuspendingStrandsExactly` | internal/matchengine/engine.go:535-580 | suspending a match that awaits a result can always be committed and strands it exactly when the timer ran and its time is up |
| `Scenarios.MatchesCanStrand` | internal/matchengine/engine.go:535-580 | a played match that is stranded: no command can be committed next, at any time |
| `TimerLaw.TimerIsConserved` | internal/matchengine/engine.go:498-580 | after any accepted sequence of pauses, resumes, suspensions and match resumes the remaining time is the duration less the unpaused time a stopwatch measured, and never below 0 |
| `MatchAggregate.Match.Execute` | internal/matchengine/engine.go:10-79 | works on a fresh copy: the receiver never changes, a rejection shows no events, and an accepted command yields the rules' state and events |
| `MatchAggregate.Match.HandleStartMatch` | internal/matchengine/engine.go:81-104 | changes the aggregate exactly as the rule for starting a match says, or not at all |
| `MatchAggregate.Match.HandleBan` | internal/matchengine/engine.go:106-153 | bans the slot and moves the turn on as the rule says, or changes nothing |
| `MatchAggregate.Match.HandlePlacePiece` | internal/matchengine/engine.go:164-214 | places the piece, selects its slot and awaits its result as the rule says, or changes nothing |
| `MatchAggregate.Match.HandlePlaceShiro` | internal/matchengine/engine.go:227-276 | places the white piece and moves the turn on as the rule says, or changes nothing |
| `MatchAggregate.Match.HandleRob` | internal/matchengine/engine.go:287-349 | kills the sacrifices, takes the target and ends the match or forces the tiebreaker as the rule says; a refused robbery leaves the board untouched |
| `MatchAggregate.Match.HandleConfirmResult` | internal/matchengine/engine.go:892-926 | settles the awaited piece, ends the match at four in line and otherwise moves the turn on as the rule says, or changes nothing |
| `MatchAggregate.Match.EnterPick` | internal/matchengine/engine.go:928-969 | starts the pick, forces the tiebreaker, drops an overdue TB request or concludes a stalemate, as the rule says |
| `MatchAggregate.Match.ForcedTBMet` | internal/matchengine/engine.go:971-982 | holds exactly from turn 15 on, while nobody has four in line and each team has robbed or has no legal robbery left |
| `MatchAggregate.Match.HandleSkip` | internal/matchengine/engine.go:582-642 | skips a ban or pick, and suspends again what was suspended, as the rule says |
| `MatchAggregate.Match.HandleGrant` | internal/matchengine/engine.go:436-475 | grants time once per team as the rule says, or changes nothing |
| `MatchAggregate.Match.HandleCalibrate` | internal/matchengine/engine.go:477-496 | calibrates a running or paused timer as the rule says, or changes nothing |
| `MatchAggregate.Match.HandlePause` | internal/matchengine/engine.go:498-516 | pauses the timer as the rule says, or changes nothing |
| `MatchAggregate.Match.HandleResume` | internal/matchengine/engine.go:518-533 | resumes the timer as the rule says, or changes nothing |
| `MatchAggregate.Match.HandleSuspend` | internal/matchengine/engine.go:535-558 | suspends and remembers whether a timer ran as the rule says, or changes nothing |
| `MatchAggregate.Match.HandleResumeMatch` | internal/matchengine/engine.go:560-580 | takes up the match and the timer that ran before, or changes nothing |
| `MatchAggregate.Match.HandleAbort` | internal/matchengine/engine.go:644-663 | aborts as the rule says, or changes nothing |
| `MatchAggregate.Match.HandleRequestTB` | internal/matchengine/engine.go:665-692 | records a TB request as the rule says, or changes nothing |
| `MatchAggregate.Match.HandleRespondTB` | internal/matchengine/engine.go:703-739 | enters TB preparation or drops the request as the rule says, or changes nothing |
| `MatchAggregate.Match.HandleStartTB` | internal/matchengine/engine.go:780-800 | starts the tiebreaker as the rule says, or changes nothing |
| `MatchAggregate.Match.HandleConfirmTB` | internal/matchengine/engine.go:802-817 | finishes the match with the tiebreaker's winner as the rule says, or changes nothing |
| `MatchAggregate.Match.HandleSurrender` | internal/matchengine/engine.go:819-846 | finishes the match for the opponent as the rule says, or changes nothing |
| `MatchAggregate.Match.HandleProxy` | internal/matchengine/engine.go:750-778 | runs the proxied command as the acting team's strategist or captain and records the proxy event |
| `MatchAggregate.Match.FinishMatch` | internal/matchengine/engine.go:878-890 | finishing clears what was pending, the timer, the phase and the active team, and keeps board and pool |
| `MatchAggregate.CheckSurrender` | internal/matchengine/engine.go:848-872 | accepts exactly the evidence with four or more distinct rostered players, the leader among them, and returns it without repetitions |
| `Recovery.CheckState` | internal/matchengine/validation.go:11-43 | the checks with counters, seen-sets and early returns accept a state exactly when it is valid |
| `Recovery.CheckPool` | internal/matchengine/validation.go:167-197 | accepts exactly the pools whose keys are their slots' ids, with known mods and states and one Shiro and one TB |
| `Recovery.CheckBoard` | internal/matchengine/validation.go:199-256 | accepts exactly the boards whose pieces are well formed, with distinct ids, one piece for each SELECTED slot and none from another, and at most one awaiting its result |
| `Recovery.CheckFlags` | internal/matchengine/validation.go:149-165 | accepts exactly the flag maps that hold both sides and nothing else |
| `Recovery.CheckTBEntry` | internal/matchengine/validation.go:436-470 | accepts exactly the TB entries whose evidence fits the state |
| `Recovery.CheckEvidence` | internal/matchengine/validation.go:350-434 | accepts exactly the states whose requests, suspension, TB entry and result fit the lifecycle and phase |
| `Recovery.CheckRosters` | internal/matchengine/model.go:415-445 | accepts exactly two rosters whose ids are positive and all distinct |
| `Recovery.CheckSlots` | internal/matchengine/model.go:371-399 | accepts exactly the slot lists with distinct ids, known mods and one Shiro and one TB, and builds the pool from them |
| `Recovery.NewReadyState` | internal/matchengine/model.go:358-413 | succeeds exactly for a valid configuration and then returns the ready state |
| `CommandDocuments.CommitKeepsConsistent` | internal/persistence/command_store.go:518-594 | a commit on the snapshot it read keeps snapshot, actions, outbox and receipts consistent: one receipt and action a version, gap-free events, states the fold of the commands |
| `CommandProtocol.EveryBehaviourIsSound` | internal/persistence/command_store.go:482-606 | under every interleaving all documents are consistent and whatever a client has read stays true or makes its commit fail |
| `CommandProtocol.StoredStatesAreRuns` | internal/persistence/command_store.go:482-606 | receipts carry the versions 1 to the snapshot's, once each, and the state stored at a version is the fold of the committed commands, a committed run of the engine |
| `StoredRuns.StorableExactly` | internal/persistence/command_store.go:482-606 | a run can be the stored history of a match if and only if it is a committed run of the engine whose clock never goes back |
| `StoredRuns.StoredBeside` | internal/persistence/snapshot_store.go:179-191 | whatever a server stores already, it can be brought to store any such run for a further match, with everything else unchanged |
| `CommandProtocol.CommittedOnce` | internal/persistence/command_store.go:482-652 | a committed command id has one receipt forever and is never committed again, and every later look-up has one answer: the original for the same request hash, a mismatch for any other |
| `CommandProtocol.RepeatsAreReplayed` | internal/persistence/command_store.go:608-652 | under every interleaving a client that has had a success gets the same receipt, as a replay, for the same request ever after, and a mismatch for another request with its command id |
| `CommandProtocol.OnlyCommitsWrite` | internal/persistence/command_store.go:491-531 | a client changes a document only by applying a command its match has no receipt for; replays, mismatches, conflicts and refusals change nothing |
| `CommandProtocol.OneCommitPerVersion` | internal/persistence/snapshot_store.go:276-343 | of all commands with the same expected version at most one commits, and it leads to the next version |
| `CommandProtocol.StoreOnlyGrows` | internal/persistence/command_store.go:482-606 | nothing committed is ever changed or dropped later; only the delivery status of events changes |
| `CommandProtocol.AnswersAreLogged` | internal/persistence/command_store.go:558-575 | a command answered with success, applied or replayed, is in its match's action log with its command id and command |
| `CommandStores.CommandStore.Apply` | internal/persistence/command_store.go:482-606 | one uninterrupted call answers and writes what the protocol's atomic step does, of which `AnswersAreExact` and `AppliedThenReplayed` say the rest |
| `CommandStores.AnswersAreExact` | internal/persistence/command_store.go:482-706 | replay, mismatch, version conflict with the current version, refusal and success, each exactly under its guards; only success writes, and it writes one receipt, one action, the snapshot and the events, numbered on and pending |
| `CommandStores.AppliedThenReplayed` | internal/persistence/command_store.go:608-652 | a command that was applied is answered with its receipt as a replay however often it is sent again, by whomever it is authorized, and nothing is written |
| `CommandStores.AtOnceIsARun` | internal/persistence/command_store.go:482-606 | that atomic step is one of the interleavings of the protocol, so all its laws hold of it |
| `CommandStores.CommitsExactlyWhen` | internal/persistence/snapshot_store.go:276-343 | on consistent documents an accepted fresh command commits exactly when its time is set and not before the snapshot's and its step is no exception |
| `CommandStores.SwapsExactly` | internal/persistence/snapshot_store.go:276-343 | a snapshot is replaced exactly by a valid state of the next version, with the same frozen configuration and slots of the same mods, at a time that is not earlier |
| `CommandStores.CommandStore.CompareAndSwap` | internal/persistence/snapshot_store.go:276-343 | swaps exactly when version, configuration hash, timestamp and validity allow it, and then replaces the snapshot and nothing else |
| `CommandStores.CommandStore.Transact` | internal/persistence/command_store.go:517-594 | either all four writes happen or none does |
| `CommandStores.CommandStore.BuildOutbox` | internal/persistence/command_store.go:654-706 | numbers the events on from the last sequence, all with the resulting version |
| `CommandStores.CommandStore.LastSequenceOf` | internal/persistence/command_store.go:708-724 | finds the largest event sequence of the match, or 0 |
| `CommandStores.CommandStore.LoadReceipt` | internal/persistence/command_store.go:608-652 | finds the receipt of the match with the command id, if there is one |
| `CommandStores.CommandStore.Create` | internal/persistence/snapshot_store.go:179-191 | creates a match exactly once and only from a valid configuration |
| `CommandStores.IndexesDecide` | internal/persistence/command_store.go:111-134 | the unique indexes of the three collections together let the writes of a commit pass exactly when neither command id, version nor event sequence is taken |
| `Gateway.EveryStreamIsExact` | internal/realtime/gateway.go:213-264 | under every interleaving of commits and polls a stream is a snapshot followed by the next events without gap, duplicate or omission, each with the state of its own version, and is never closed for a gap |
| `Gateway.PollsMakeProgress` | internal/realtime/gateway.go:228-264 | a poll is never empty while an event waits, and each delivery sends one more event |
| `Gateway.BaselineIsExact` | internal/persistence/command_store.go:339-352 | the baseline of a version counts exactly the events up to it, however many came since |
| `Gateway.BatchIsStretch` | internal/persistence/command_store.go:314-334 | a batch is the next stretch of the event sequence, as long as the limit allows |
| `Gateway.StateIsStored` | internal/persistence/command_store.go:357-382 | every committed version has exactly one state to load, the fold of its commands |
| `GatewayLoop.LatestSequenceAtVersion` | internal/persistence/command_store.go:339-352 | finds the largest sequence among the events up to the version |
| `GatewayLoop.ListEventsAfter` | internal/persistence/command_store.go:314-334 | lists the events beyond a sequence in ascending order and leaves out only later ones, at the limit |
| `GatewayLoop.LoadStateAtVersion` | internal/persistence/command_store.go:357-382 | loads only stored, valid states of that version, and on consistent documents always the one there is |
| `GatewayLoop.Subscription.Deliver` | internal/realtime/gateway.go:236-262 | an old event is skipped, a later one ends the stream with a gap, and the next one is sent with a stored state of its version or ends the stream; in consistent documents the next event extends an exact stream |
| `GatewayLoop.Subscription.Poll` | internal/realtime/gateway.go:228-264 | one tick sends every waiting event, up to a hundred, and keeps the stream exact |
| `Publisher.PublishedIsAPrefix` | internal/persistence/command_store.go:241-264 | with any number of publishers, failures, retries and new commits, each match's published events are a prefix of its events |
| `Publisher.JobsEnterAtTheHead` | internal/ircpublisher/publisher.go:48-81 | a job first enters the queue only when all earlier events of its match are published |
| `Publisher.JobsEnterInOrder` | internal/ircpublisher/publisher.go:48-81 | if an event is planned the same way each time, the jobs of a match enter the queue in the order of its events, complete for every published event |
| `JobDispatch.QueueIsOrderlyExactly` | internal/ircpublisher/publisher.go:48-81 | whatever is planned and wherever it is sent, the publishers' jobs form one of the orderly queues if and only if the jobs of each channel are inserted in order of sequence and time |
| `JobDispatch.EntersInOrderExactly` | internal/persistence/irc_jobs.go:266-292 | a new job comes after all jobs in its channel by sequence and creation time exactly when it comes after every job inserted there before |
| `JobDispatch.OwnChannelsOnlyTick` | internal/ircpublisher/publisher.go:48-81 | if plans are stable and each match keeps a channel of its own, the queue is orderly if and only if the jobs of an event are inserted at strictly increasing times |
| `JobPaths.Bring` | internal/persistence/irc_jobs.go:294-507 | whatever the state of the queue, its locks and its leases, one worker can bring any open job in flight and changes none but jobs that come before it in its channel |
| `JobFlights.OneJobOfAMatchInFlight` | internal/persistence/irc_jobs.go:294-363 | if the jobs of each match are inserted into one channel in order of sequence and time, at most one job of each match is in flight, under any interleaving and whatever else shares the channel |
| `JobFlights.PublishersFollowPlan` | internal/ircpublisher/publisher.go:62-75 | with stable plans a job is inserted once, and after everything planned before it for its event, whichever publishers enqueue, fail, stop or start over |
| `FlightRuns.OneInFlightExactly` | internal/ircpublisher/publisher.go:48-141 | with stable plans, all runs of publishers and workers keep at most one job of each match in flight if and only if the plannable jobs of a match have one channel and those of an event have strictly increasing times in plan order |
| `FlightRuns.BothFly` | internal/persistence/irc_jobs.go:266-363 | for any two plannable jobs of a match of which the queue does not hold the later behind the earlier, there is a run with both in flight |
| `DispatchScenario.TiesPutTwoInFlight` | internal/persistence/irc_jobs.go:266-363 | a run in which two invitations inserted at the same time are both in flight |
| `DispatchScenario.MovedLinkPutsTwoInFlight` | internal/service/room_service.go:272-284 | a run in which the link moves between two events and a job of each is in flight, on two channels, although they are in order by sequence and time |
| `PublisherLoop.EventOutbox.ListUnpublished` | internal/persistence/command_store.go:241-264 | lists heads only, at most one a match, and all of them below the limit |
| `PublisherLoop.EventOutbox.Mark` | internal/persistence/command_store.go:384-416 | marks an event exactly when it exists and is not published, and touches no other |
| `PublisherLoop.EventOutbox.RetryFailedEvent` | internal/persistence/command_store.go:294-309 | makes a FAILED event pending again and refuses every other |
| `PublisherLoop.RunOnce` | internal/ircpublisher/publisher.go:48-81 | one pass takes every match's first unpublished event if it is pending, publishes those that can be planned and queued in full, fails the others and leaves all other events alone; it queues exactly their jobs up to the first that is refused |
| `IrcJobs.OneJobInFlight` | internal/persistence/irc_jobs.go:294-363 | for jobs that enter a channel in order, at most one job of a channel is SENDING or SENT at any time, and it is the channel's first open one |
| `IrcJobs.TerminalInOrder` | internal/persistence/irc_jobs.go:387-464 | jobs become ACKNOWLEDGED or CANCELLED in channel order, and once they are they never change |
| `IrcJobs.ClaimsSupersede` | internal/persistence/irc_jobs.go:294-363 | a new claim of a job supersedes the token the job carried |
| `IrcJobs.SupersededForever` | internal/persistence/irc_jobs.go:373-464 | a call with a superseded token never changes any job again |
| `JobQueues.JobQueue.Enqueue` | internal/persistence/irc_jobs.go:266-292 | inserts a job once, pending and due from its time on; a second insertion changes nothing |
| `JobQueues.JobQueue.Claim` | internal/persistence/irc_jobs.go:294-363 | a claim takes, under a fresh token and with the channel's lock, the first listed job whose channel nobody holds, and no worker finds it due before the lease ends; it claims nothing only if the channels of all listed jobs are held |
| `JobQueues.JobQueue.Candidates` | internal/persistence/irc_jobs.go:294-318 | lists due first jobs of their channels, those that wait longest first, and all of them if they are fewer than 64 |
| `JobQueues.JobQueue.Perform` | internal/persistence/irc_jobs.go:365-464 | MarkSent, Ack, Fail, Reject and Cancel act exactly when the job has the right status and the caller's token; each leaves its status and says from when on the job is due again, if ever; all but the first free the channel |
| `JobQueues.JobQueue.Retry` | internal/persistence/irc_jobs.go:489-507 | a referee's retry succeeds exactly for a FAILED job of that channel and makes it due |
| `JobQueues.BackoffDoubles` | internal/irc/worker.go:197-205 | the wait before a retry is 2 seconds at first, doubles with each attempt up to the sixth and stays at 64 |
| `JobQueues.RunOnce` | internal/irc/worker.go:113-205 | one pass claims at most one job and changes no other; a sent job is due when its time for the acknowledgement is over, a failed one 2, 4, 8, 16, 32 or 64 seconds later by its attempts, and the fifth failure parks it; the channel stays locked only after sending |
| `IrcReview.ConfirmedMeansCommitted` | internal/ircreview/reconciler.go:40-76 | if each command id is used for one match, an observation becomes CONFIRMED only if the action log holds the confirmation of that match, piece and winner |
| `IrcReview.EvidenceIsSafeExactly` | internal/graphql/schema.resolvers.go:295-329 | for every server and every set of claims that may be made there: CONFIRMED means committed in every review if and only if no observation has two claims with the same command id and verdict of which only one is committed |
| `IrcReview.MistakenClaimsConfirmWrongly` | internal/ircreview/reconciler.go:40-76 | given two such claims, a review that makes only these two ends with the observation CONFIRMED for the uncommitted one |
| `IrcReview.OwnChannelsAreSafe` | internal/graphql/resolver.go:24-34 | if every channel a room is ever linked to belongs to one match, CONFIRMED means committed, whatever command ids are used |
| `ReviewScenario.SharedCommandIdConfirmsWrongly` | internal/graphql/schema.resolvers.go:295-329 | a server with two matches and a review of it in which an observation is CONFIRMED for the match that committed no such result |
| `ReviewDesk.ObservationStore.ClaimConfirmation` | internal/persistence/irc_jobs.go:126-159 | a complete claim is granted exactly on a known observation that is pending or already holds this very claim, and is then recorded unless it is confirmed already; otherwise nothing changes |
| `ReviewDesk.ObservationStore.Settle` | internal/persistence/irc_jobs.go:161-187 | an observation being confirmed under the command id becomes confirmed, or pending again without a claim, and nothing else changes |
| `ReviewDesk.ObservationStore.FinishRequest` | internal/graphql/schema.resolvers.go:319-328 | the rest of a request finalizes after success and releases after failure |
| `ReviewDesk.ObservationStore.ListConfirming` | internal/persistence/irc_jobs.go:189-203 | lists observations being confirmed, each once, and all of them below the limit |
| `ReviewDesk.ReconcileItem` | internal/ircreview/reconciler.go:40-76 | finalizes a claim found in the action log, releases one that is overdue without it, and leaves the rest |
| `ReviewDesk.RunOnce` | internal/ircreview/reconciler.go:40-76 | one pass decides every observation being confirmed, if they are fewer than a hundred, and no other: confirmed if the action log has its claim, given back if the claim is overdue without, left alone otherwise; it reports an error exactly when a listed claim is incomplete |
| `CacheFill.CacheStaysFresh` | internal/fetcher/fetcher.go:115-138 | for every interleaving of fills, writes and invalidations no cached value is older than an invalidated write, as long as the generation key expires only when no running fill depends on it |
| `CacheFill.FreshnessIsExact` | internal/fetcher/fetcher.go:264-280 | every continuation stays fresh if and only if every running fill is safe: its generation is overtaken or what it read is recent enough |
| `CacheFill.ExpiryIsSafeExactly` | internal/fetcher/fetcher.go:34-41 | when the generation key expires a fill stays safe exactly if the count it read was 0 and its value is not older than the last invalidated write |
| `CacheFill.ShortFillsCanGoStale` | internal/fetcher/fetcher.go:330-339 | for every lifetime of at least 2 a run exists in which all fills are shorter than it and a stale value is cached |
| `CacheFetcher.ResourceCache.Get` | internal/fetcher/fetcher.go:115-138 | a hit returns the cached value and touches nothing, a miss returns the current one, from the API if the database has none, and caches it; with safe expiries no answer is older than an invalidated write |
| `CacheFetcher.ResourceCache.Sync` | internal/fetcher/fetcher.go:141-226 | upserts before it fills, returns what it wrote and caches it unless it could not read a generation that has advanced |
| `CacheFetcher.ResourceCache.CacheIfGeneration` | internal/fetcher/fetcher.go:330-339 | stores exactly when the generation still has the count the fill read |
| `CacheFetcher.ResourceCache.Write` | internal/service/beatmap_service.go:174-181 | a write of the service layer counts as one more database write that has yet to be invalidated |
| `CacheFetcher.ResourceCache.Invalidate` | internal/fetcher/fetcher.go:272-280 | advances the generation, restarts its lifetime and drops the cached value |
| `PoolSlots.PrintInt` | internal/domain/pool.go:115-135 | the buffer loop prints the decimal digits of every 64-bit number, with the machine's negation at the smallest one |
| `PoolSlots.NumbersArePositional` | internal/domain/pool.go:115-135 | decimal texts are read with the last digit counting one |
| `PoolSlots.ParsePoolSlot` | internal/domain/pool.go:70-104 | the scan over dashes and compact prefixes accepts the two slot notations and nothing else |
| `PoolSlots.ParseUndoesPrint` | internal/domain/pool.go:15-17 | printing a slot of a known mod and a valid index and parsing the text gives the slot back |
| `PoolSlots.TextsReadAsWritten` | internal/domain/pool.go:70-104 | the dashed and the compact notation of every mod, letter by letter, read as that mod and index |
| `PoolSlots.ParsedSlotsAreValid` | internal/domain/pool.go:70-113 | whatever parses has a known mod and a positive index |
| `Mappool.ValidateEntries` | internal/domain/mappool.go:63-99 | reports, entry by entry and in order, the first field that is wrong, and at last a missing TB; nothing exactly for the valid entry lists |
| `Mappool.ProblemsAreExact` | internal/domain/mappool.go:63-99 | of each entry exactly its first wrong field is reported, in the order of the list, and a missing TB at the end |
| `Mappool.InsertionSort` | internal/domain/mappool.go:119-141 | the in-place insertion sort of a group yields its stable ascending arrangement |
| `Mappool.SortingIsStable` | internal/domain/mappool.go:119-141 | that arrangement is ascending, a permutation, and keeps the order of entries with equal indexes |
| `Mappool.SortedEntries` | internal/domain/mappool.go:119-141 | sorts group by group in the canonical order of mods |
| `Mappool.SortedByMod` | internal/domain/mappool.go:119-141 | that order is NM, HD, HR, DT, FM, Shiro, TB |
| `Mappool.NormalizeEntryIndexes` | internal/service/mappool_service.go:139-154 | sorting and the renumbering loops give the normal form |
| `Mappool.RenumberedIsNormalized` | internal/service/mappool_service.go:139-154 | counting through the sorted list once per mod numbers each group from 1 and leaves the groups in place |
| `Mappool.NormalizingIsIdempotent` | internal/service/mappool_service.go:139-154 | normalizing twice is normalizing once, and sorting a normal form changes nothing |
| `Mappool.NormalizingRenumbersSorted` | internal/service/mappool_service.go:139-154 | normalizing is sorting a permutation of the entries and changing their indexes only |
| `EngineSlots.ToRuntime` | internal/domain/mappool.go:45-56 | groups the sorted entries by mod |
| `EngineSlots.EngineConfigurationSlots` | internal/service/formal_match_factory.go:106-152 | builds a slot for every playable piece, the synthetic SHIRO slot and one TB slot |
| `EngineSlots.EngineAcceptsSlots` | internal/service/formal_match_factory.go:106-152 | for every valid mappool the engine slots after normalization have distinct ids with exactly one Shiro and one TB, as NewReadyState demands |
| `EngineSlots.EngineSlotsAreEntries` | internal/service/formal_match_factory.go:106-205 | for every valid mappool after normalization each NM to FM entry is an engine slot with its text and its own mod, every engine slot of these mods is such an entry, and one SHIRO and one TB slot are there besides |
| `EngineSlots.SlotsAreEntries` | internal/service/formal_match_factory.go:106-132 | the playable slots of a normalized mappool are its entries' slots, one each |
| `EngineSlots.SlotsLeadBack` | internal/service/formal_match_read.go:112-127 | printing, parsing and looking up the slot of a normalized entry, whichever of NM to FM or TB, leads back to that entry's beatmap |
| `EngineSlots.FormalPool` | internal/service/formal_match_read.go:112-127 | shows each slot of the state with the beatmap its id leads to, or none |
| `EngineSlots.ShiroShowsNothing` | internal/service/formal_match_factory.go:134-138 | the synthetic Shiro slot shows no beatmap, as intended, whatever the mappool holds |

## Left out

- Error codes and messages: a command is accepted or rejected; the store adds version conflict, mismatch and replay.
- Event payloads: events are their types, in order, with sequence, version and time.
- JSON, BSON and hashing: documents are values, encoding is the identity and the request hash is taken to be injective. Nil and absent maps are not told apart.
- Texts of closed sets (sides, mods, phases, lifecycles, states): every unknown text is one extra constructor.
- 64-bit widths of times, durations, turns and versions, and the saturation of time differences; the decimal printing of pool slots does model them.
- Map iteration order, and the final sorting of the lists shown to users: lists are compared by their elements.
- MongoDB transactions: reads of a transaction may see any moment between its start and its commit, which allows more than the database does; a commit is atomic and checks versions and unique indexes.
- Event ids: an event is identified by its match and sequence.
- Authorization of users to actors, rate limits, connection counters, websocket frames and network failures of the gateway, which only end a stream.
- Planning and classifying IRC texts: a plan is any list of jobs derived from its event, and a reply says what it says.
- Which hundred matches or observations a pass lists when there are more: any hundred of them.
- LoadMany, ListActions, ListFailedEvents, List and ByID queries, schema validators and index installation: plain reads and set-up.
- The older match model of internal/domain and its service, which formal matches do not use.
- Beatmap and user fields, skill and selector fields of mappool entries, pagination, sessions and CRUD services.
- `MatchAggregate.Match.Execute`: states whose board repeats a piece id or whose pool keys are not its slots' ids are outside the class invariant; `Recovery.ValidIsOrderly` shows that no state passing the recovery check is one.
- `MatchAggregate.Match.HandlePlaceShiro`: a pool with several Shiro slots would make the source's choice depend on map order; the class invariant excludes it as well.
- `CommandStores.CommandStore.Create`: stores ready states only, as matches are created (internal/service/formal_match_factory.go:43-93), while the source would store any state that passes the recovery check.
- `RobberySearch.BoardAfter`: assumes that piece ids are unique on the board, as `PlayingBoards.PlayingBoard.SetOwner` does.
- `RobberySearch.CanRob`: assumes that piece ids are unique on the board, as `PlayingBoards.PlayingBoard.SetOwner` does.
- `RobberySearch.RobberyPlans`: assumes that piece ids are unique on the board, as `PlayingBoards.PlayingBoard.SetOwner` does.
- `PlayingBoards.PlayingBoard.SetOwner`: assumes that piece ids are unique on the board, as every state that passes the recovery check has them.
- `CommandStores.CommandStore.Apply`: is stated without interference; `CommandProtocol` is the statement under interleaving.
- `IrcJobs.OneJobInFlight`: assumes that the jobs of a channel enter in strictly increasing order of sequence and creation time, without which it is false; `JobDispatch.QueueIsOrderlyExactly` says when the publishers' jobs do, and `FlightRuns.OneInFlightExactly` when a match has one job in flight all the same.
- `JobQueues.JobQueue.Enqueue`: makes the same assumption of a new job, because the object carries an orderly queue; the upsert without it is in `JobDispatch`.
- `JobQueues.JobQueue.Claim`: is stated without interference, so that the re-read candidate is still the first open job; `IrcJobs` has the other outcomes.
- `Publisher.JobsEnterInOrder`: assumes that an event is planned the same way every time.
- `FlightRuns.OneInFlightExactly`: assumes the same; a job's channel and time are those of its first insertion, which later ones do not change. The clocks of publishers and workers are not related to each other.
- `ReviewDesk.ObservationStore.ClaimConfirmation`: assumes what the resolver has checked before the call, that the observed text says the verdict and the caller may claim it for the match; the store method asks for neither.
- `IrcReview.ConfirmedMeansCommitted`: assumes that each command id is used for one match; `IrcReview.EvidenceIsSafeExactly` gives the exact condition.
- `CacheFill.CacheStaysFresh`: assumes safe expiries, because the plain promise is false.
- `Availability.RefereeSurfaceIsSound`: says nothing about recording a surrender, whose evidence the referee has to bring.
