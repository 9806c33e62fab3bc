/** The match aggregate of internal/matchengine/model.go: its values, its timer and
    its initial configuration.

    Go strings that range over declared constants become datatypes with one extra
    constructor for every other text. `NoTeam` is the empty team name and any text
    that is neither RED nor BLUE; `valid()` is false of it. A Go pointer becomes an
    Option. Times and durations are integers, and time 0 is Go's zero time. */
module MatchModel {

  datatype Option<+T> = None | Some(value: T)

  type Id = string
  type Time = int
  type Duration = int

  datatype Team = Red | Blue | NoTeam {
    predicate Valid() { this != NoTeam }

    // Everything that is not RED has RED as its opponent.
    function Opponent(): Team { if Red? then Blue else Red }
  }

  datatype Lifecycle =
    Ready | Running | Suspended | AdjudicationRequired | Finished | Aborted | OtherLifecycle

  datatype Phase = PhaseNone | Ban | Pick | WaitingForResult | TBPreparation | TBPlaying | OtherPhase

  datatype Mod = NM | HD | HR | DT | FM | Shiro | TB | OtherMod

  datatype ForceMod = ForceNM | ForceHD | ForceHR | OtherForce

  datatype SlotState = Available | Banned | Selected | OtherSlotState

  datatype Slot = Slot(id: Id, mod: Mod, state: SlotState)

  datatype Outcome = WaitingResult | Won | White | Dead | OtherOutcome

  datatype Piece = Piece(
    id: Id, source: Id, mod: Mod, forceMod: Option<ForceMod>,
    selectedBy: Team, owner: Option<Team>, outcome: Outcome)

  /** A parsed board coordinate: column A is 0, row 1 is 0. A text that is not one of
      A1..D4 is any cell outside the board. */
  datatype Cell = Cell(col: int, row: int)

  type Board = map<Cell, Piece>
  type Pool = map<Id, Slot>

  datatype Roster = Roster(leader: int, players: seq<int>)

  // ----- timers (model.go 131-175)

  datatype Timer = Timer(startedAt: Time, duration: Duration, paused: bool, remainingAtPause: Duration) {

    function Remaining(now: Time): (r: Duration)
      ensures 0 <= r || duration < 0
      ensures !paused && 0 <= duration && now <= startedAt ==> r == duration
      ensures !paused && startedAt <= now <= startedAt + duration ==> r == startedAt + duration - now
      ensures !paused && 0 <= duration && startedAt + duration <= now ==> r == 0
    {
      if paused then
        if remainingAtPause < 0 then 0 else remainingAtPause
      else
        var remaining := duration - (now - startedAt);
        if remaining < 0 then 0
        else if remaining > duration then duration
        else remaining
    }

    predicate Expired(now: Time) { Remaining(now) <= 0 }

    function PausedAt(now: Time): Timer {
      this.(remainingAtPause := Remaining(now), paused := true)
    }

    function ResumedAt(now: Time): Timer {
      StartTimer(now, if remainingAtPause < 0 then 0 else remainingAtPause)
    }
  }

  const NO_TIMER := Timer(0, 0, false, 0)

  function StartTimer(now: Time, duration: Duration): Timer { Timer(now, duration, false, 0) }

  datatype TimerConfig = TimerConfig(
    preset: string, ban: Duration, banAdditional: Duration, pick: Duration, pickAdditional: Duration,
    confirmation: Duration, confirmationAdditional: Duration, tbPreparation: Duration)
  {
    predicate Valid() {
      && preset != ""
      && ban > 0 && banAdditional > 0
      && pick > 0 && pickAdditional > 0
      && confirmation > 0 && confirmationAdditional > 0
      && tbPreparation > 0
    }
  }

  // ----- evidence

  datatype TBBasis = CaptainAgreement | ForcedAfterRobberyChecks | OtherBasis

  datatype TBRequest = TBRequest(id: Id, requestedBy: Team, basis: TBBasis)

  datatype TBEntry = TBEntry(basis: TBBasis, requestId: Id, requestedBy: Team)

  datatype ResultReason = FourAlignment | TBResult | Surrender | StalemateWonCount | OtherReason

  datatype Result = Result(
    winner: Team, reason: ResultReason, surrenderingTeam: Option<Team>,
    confirming: seq<int>, redWon: int, blueWon: int)

  datatype StalemateEvidence = StalemateEvidence(redWon: int, blueWon: int)

  datatype Suspension = Suspension(reason: string, at: Time, hadTimer: bool, timerWasPaused: bool)

  // ----- the aggregate. The flat Go struct is grouped by what changes together.

  /** Frozen at creation; the projection the snapshot store hashes, with the pool's mods. */
  datatype Config = Config(firstBan: Team, firstPick: Team, rosters: map<Team, Roster>, timers: TimerConfig)

  datatype Entitlements = Entitlements(robbery: map<Team, bool>, teamPause: map<Team, bool>)

  datatype Ending = Ending(
    winner: Option<Team>, result: Option<Result>, stalemate: Option<StalemateEvidence>, abortReason: string)

  const NO_ENDING := Ending(None, None, None, "")

  datatype State = State(
    version: nat,
    lifecycle: Lifecycle,
    phase: Phase,
    turn: int,
    activeTeam: Team,
    config: Config,
    pool: Pool,
    board: Board,
    timer: Timer,
    used: Entitlements,
    pendingPiece: Id,
    pendingTB: Option<TBRequest>,
    tbEntry: Option<TBEntry>,
    suspension: Option<Suspension>,
    ending: Ending)

  // A Go map read: the zero value where the key is missing.
  predicate Flag(flags: map<Team, bool>, team: Team) { team in flags && flags[team] }

  function RosterOf(rosters: map<Team, Roster>, team: Team): Roster {
    if team in rosters then rosters[team] else Roster(0, [])
  }

  const READY_TURN := 0
  const FIRST_BAN_TURN := -3
  const SECOND_BAN_TURN := -2
  const THIRD_BAN_TURN := -1
  const FINAL_BAN_TURN := 0
  const FIRST_PICK_TURN := 1

  function PickTeam(first: Team, turn: int): (team: Team)
    ensures first.Valid() ==> team.Valid()
    ensures turn == FIRST_PICK_TURN ==> team == first
  {
    // Go's % truncates, so a negative odd turn leaves -1 and is not equal to 1.
    if turn >= 0 && turn % 2 == 1 then first else first.Opponent()
  }

  /** From the first pick on the teams take turns. */
  lemma PicksAlternate(first: Team, turn: int)
    requires first.Valid() && turn >= FIRST_PICK_TURN
    ensures PickTeam(first, FIRST_PICK_TURN) == first
    ensures PickTeam(first, turn + 1) == PickTeam(first, turn).Opponent() != PickTeam(first, turn)
  {}

  // ----- blank texts (engine.go 874-876)

  // The code points of Unicode's White_Space property, which Go's TrimSpace removes.
  predicate IsSpace(ch: char) {
    var code := ch as int;
    || 0x09 <= code <= 0x0d || code == 0x20 || code == 0x85 || code == 0xa0 || code == 0x1680
    || 0x2000 <= code <= 0x200a || code == 0x2028 || code == 0x2029 || code == 0x202f
    || code == 0x205f || code == 0x3000
  }

  /** The twenty-five of them, one by one. */
  lemma SpacesAreListed(ch: char)
    ensures IsSpace(ch) <==>
              ch as int in {9, 10, 11, 12, 13, 32, 133, 160, 5760, 8192, 8193, 8194, 8195, 8196, 8197, 8198, 8199, 8200, 8201,
                            8202, 8232, 8233, 8239, 8287, 12288}
  {}

  predicate MissingReason(reason: string) { forall i | 0 <= i < |reason| :: IsSpace(reason[i]) }

  // ----- actors and commands (model.go 456-734)

  datatype Capability = Strategist | Captain | Referee | OtherCapability

  datatype Actor = Actor(capability: Capability, team: Option<Team>, adminOverride: bool)

  function StrategistActor(team: Team): Actor { Actor(Strategist, Some(team), false) }

  function CaptainActor(team: Team): Actor { Actor(Captain, Some(team), false) }

  const REFEREE_ACTOR := Actor(Referee, None, false)

  datatype Command =
    | StartMatch
    | BanPoolSlot(slotId: Id)
    | RefereeBanPoolSlot(actingTeam: Team, slotId: Id, reason: string)
    | PlacePiece(slotId: Id, pieceId: Id, cell: Cell)
    | RefereePlacePiece(actingTeam: Team, slotId: Id, pieceId: Id, cell: Cell, reason: string)
    | PlaceShiro(pieceId: Id, cell: Cell)
    | RefereePlaceShiro(actingTeam: Team, pieceId: Id, cell: Cell, reason: string)
    | RobPiece(target: Id, sets: seq<seq<Id>>)
    | RefereeRobPiece(actingTeam: Team, target: Id, sets: seq<seq<Id>>, reason: string)
    | GrantAdditionalTime(reason: string)
    | CalibrateTimer(remaining: Duration, reason: string)
    | PauseTimer(reason: string)
    | ResumeTimer(reason: string)
    | SuspendMatch(reason: string)
    | ResumeMatch(reason: string)
    | SkipCurrentAction(reason: string)
    | AbortMatch(reason: string)
    | RequestTB(requestId: Id, basis: TBBasis)
    | RefereeRequestTB(actingTeam: Team, requestId: Id, basis: TBBasis, reason: string)
    | RespondTBRequest(requestId: Id, accept: bool)
    | RefereeRespondTBRequest(actingTeam: Team, requestId: Id, accept: bool, reason: string)
    | StartTB(reason: string)
    | ConfirmTBResult(winningTeam: Team)
    | RecordSurrender(surrenderingTeam: Team, confirming: seq<int>, reason: string)
    | ConfirmBeatmapResult(pieceId: Id, winningTeam: Team)
    | OtherCommand

  datatype EventType =
    | MatchStarted | BanPhaseStarted | PoolSlotBanned | TurnAdvanced | PickPhaseStarted
    | PiecePlaced | ShiroPlaced | ResultConfirmationRequested | BeatmapResultConfirmed | PieceWon
    | PiecesSacrificed | PieceRobbed | AdditionalTimeGranted | TimerCalibrated | TimerPaused
    | TimerResumed | MatchSuspended | MatchResumed | ActionSkipped | MatchAborted
    | RefereeProxyActionRecorded | TBRequested | TBRequestAccepted | TBRequestRejected
    | TBRequestExpired | TBForced | TBPreparationStarted | TBStarted | TBResultConfirmed
    | SurrenderRecorded | MatchFinished | StalemateDetected | AdjudicationRaised
    | TimerStarted | TimerStopped

  datatype Transition = Transition(state: State, events: seq<EventType>)

  // ----- the initial state (model.go 358-413)

  datatype Configuration = Configuration(
    firstBan: Team, firstPick: Team, slots: seq<Slot>, rosters: map<Team, Roster>, timers: TimerConfig)

  // Every participant of one team, leader first.
  function Participants(roster: Roster): seq<int> { [roster.leader] + roster.players }

  /** Two teams, positive ids, and no id twice anywhere (model.go 415-454). */
  ghost predicate ValidRosters(rosters: map<Team, Roster>) {
    && |rosters| == 2 && Red in rosters && Blue in rosters
    && var all := Participants(rosters[Red]) + Participants(rosters[Blue]);
    && (forall i | 0 <= i < |all| :: all[i] > 0)
    && (forall i, j | 0 <= i < j < |all| :: all[i] != all[j])
  }

  ghost predicate ValidSlotList(slots: seq<Slot>) {
    && (forall i | 0 <= i < |slots| :: slots[i].id != "" && !slots[i].mod.OtherMod?)
    && (forall i, j | 0 <= i < j < |slots| :: slots[i].id != slots[j].id)
    && CountMod(slots, Shiro) == 1
    && CountMod(slots, TB) == 1
  }

  function CountMod(slots: seq<Slot>, mod: Mod): nat {
    if slots == [] then 0
    else CountMod(slots[..|slots| - 1], mod) + if slots[|slots| - 1].mod == mod then 1 else 0
  }

  /** The configured slots by id, all available. */
  function PoolOf(slots: seq<Slot>): Pool {
    if slots == [] then map[]
    else
      var last := slots[|slots| - 1];
      PoolOf(slots[..|slots| - 1])[last.id := last.(state := Available)]
  }

  ghost predicate ValidConfiguration(c: Configuration) {
    && c.firstBan.Valid() && c.firstPick.Valid()
    && ValidSlotList(c.slots)
    && ValidRosters(c.rosters)
    && c.timers.Valid()
  }

  function ReadyState(c: Configuration): State {
    State(0, Ready, PhaseNone, 0, NoTeam, Config(c.firstBan, c.firstPick, c.rosters, c.timers),
          PoolOf(c.slots), map[], NO_TIMER,
          Entitlements(map[Red := false, Blue := false], map[Red := false, Blue := false]),
          "", None, None, None, NO_ENDING)
  }
}
