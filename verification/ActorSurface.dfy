/** AnalyzeForActor of internal/matchengine/availability.go 136-298 as it is computed, list by
    list, proved to contain exactly what Availability says each list contains. */
module ActorSurface {
  import opened MatchModel
  import opened BoardRules
  import opened Rules
  import opened Availability
  import opened Analyses
  import opened MatchAggregate
  import opened RobberySearch
  import Robbery
  import A = Acceptance

  /** `pending` is the TB request that may be answered; it can be accepted and rejected. */
  datatype Surface = Surface(
    actions: seq<Action>, bans: seq<Id>, placements: seq<Placement>, shiroCells: seq<Cell>, plans: seq<Plan>,
    requestTeams: seq<Team>, responseTeams: seq<Team>, pending: Option<Id>)

  const NOTHING := Surface([], [], [], [], [], [], [], None)

  // ----- the lists shared by strategists and referees

  method BannableSlots(pool: Pool) returns (ids: seq<Id>)
    ensures forall id :: id in ids <==> id in pool && Bannable(pool[id])
  {
    ids := [];
    var todo := pool.Keys;
    while todo != {}
      invariant todo <= pool.Keys
      invariant forall id :: id in ids <==> id in pool && id !in todo && Bannable(pool[id])
    {
      var id :| id in todo;
      todo := todo - {id};
      if pool[id].state == Available && pool[id].mod != Shiro && pool[id].mod != TB { ids := ids + [id]; }
    }
  }

  method ShiroIsAvailable(pool: Pool) returns (available: bool)
    ensures available <==> AvailableShiro(pool)
  {
    var todo := pool.Keys;
    while todo != {}
      invariant todo <= pool.Keys
      invariant forall id | id in pool && id !in todo :: pool[id].mod != Shiro || pool[id].state != Available
    {
      var id :| id in todo;
      todo := todo - {id};
      if pool[id].mod == Shiro && pool[id].state == Available {
        assert IsShiroSlot(pool, id);
        return true;
      }
    }
    return false;
  }

  method PiecePlacements(pool: Pool, ghost b: Board, all: seq<Placement>) returns (placements: seq<Placement>)
    requires forall p :: p in all <==> Offered(pool, b, p)
    ensures forall p :: p in placements <==> Offered(pool, b, p) && pool[p.slotId].mod != Shiro
  {
    placements := [];
    for i := 0 to |all|
      invariant forall p | p in all[..i] :: p.slotId in pool
      invariant forall p :: p in placements <==> p in all[..i] && pool[p.slotId].mod != Shiro
    {
      assert all[i] in all && all[..i + 1] == all[..i] + [all[i]];
      if pool[all[i].slotId].mod != Shiro { placements := placements + [all[i]]; }
    }
    assert all[..|all|] == all;
  }

  /** The placement and Shiro lists of an open pick. */
  method PickLists(m: Match) returns (placements: seq<Placement>, shiroCells: seq<Cell>)
    requires m.phase == Pick
    ensures forall p :: p in placements <==> PlacementListed(m.Snapshot(), p.slotId, p.cell, p.force)
    ensures forall c :: c in shiroCells <==> ShiroCellListed(m.Snapshot(), c)
  {
    hide Stalemated, WonCount, AvailableShiro, Selectable, Fits;
    var base := Analyze(m.pool, m.board);
    placements := PiecePlacements(m.pool, m.board.pieces, base.placements);
    var shiro := ShiroIsAvailable(m.pool);
    shiroCells := if shiro then base.emptyCells else [];
  }

  method PlanLists(m: Match, team: Team) returns (plans: seq<Plan>)
    requires m.Valid()
    ensures forall p :: p in plans <==> PlanListed(m.Snapshot(), team, p.target, p.sets)
  {
    hide Robbery.Planned, UniqueIds, Keyed;
    if m.lifecycle != Running || m.phase != Pick || m.activeTeam != team { return []; }
    plans := RobberyPlans(m.board, team);
  }

  // ----- strategists (availability.go 157-191)

  ghost predicate ListsExactly(s: State, actor: Actor, now: Time, r: Surface) {
    && (forall id :: id in r.bans <==> StrategistOpen(s, actor, now) && BanListed(s, id))
    && (forall p :: p in r.placements <==> StrategistOpen(s, actor, now) && PlacementListed(s, p.slotId, p.cell, p.force))
    && (forall c :: c in r.shiroCells <==> StrategistOpen(s, actor, now) && ShiroCellListed(s, c))
    && (forall p :: p in r.plans <==> StrategistOpen(s, actor, now) && PlanListed(s, actor.team.value, p.target, p.sets))
  }

  /** A strategist is offered an action exactly when its list has something in it. */
  predicate ActionsFollowLists(r: Surface) {
    && (forall action :: action in r.actions <==>
          || (action == ActBan && r.bans != []) || (action == ActPlace && r.placements != [])
          || (action == ActShiro && r.shiroCells != []) || (action == ActRob && r.plans != []))
    && r.requestTeams == [] && r.responseTeams == [] && r.pending.None?
  }

  method AnalyzeStrategist(m: Match, actor: Actor, now: Time) returns (r: Surface)
    requires m.Valid() && actor.capability == Strategist
    ensures ListsExactly(m.Snapshot(), actor, now, r) && ActionsFollowLists(r)
  {
    hide LegalPlacement, AvailableShiro, Robbery.Planned, UniqueIds, Keyed;
    r := NOTHING;
    if now == 0 || actor.team.None? || !actor.team.value.Valid() { return; }
    if m.lifecycle != Running || m.activeTeam != actor.team.value || m.timer.paused || m.timer.Expired(now) { return; }
    if m.phase == Ban {
      var bans := BannableSlots(m.pool);
      r := NOTHING.(actions := if bans != [] then [ActBan] else [], bans := bans);
    } else if m.phase == Pick {
      var placements, shiroCells := PickLists(m);
      var plans := PlanLists(m, actor.team.value);
      r := NOTHING.(
        actions := (if placements != [] then [ActPlace] else []) + (if shiroCells != [] then [ActShiro] else [])
                   + (if plans != [] then [ActRob] else []),
        placements := placements, shiroCells := shiroCells, plans := plans);
    }
  }

  // ----- captains (availability.go 192-205)

  predicate CaptainListed(s: State, actor: Actor, now: Time, action: Action) {
    && now != 0 && actor.team.Some? && actor.team.value.Valid() && s.lifecycle == Running && CaptainWindow(s)
    && match action
       case ActRequestTB => s.pendingTB.None?
       case ActRespondTB => s.pendingTB.Some? && s.pendingTB.value.requestedBy != actor.team.value
       case _ => false
  }

  method AnalyzeCaptain(m: Match, actor: Actor, now: Time) returns (r: Surface)
    requires actor.capability == Captain
    ensures forall action :: action in r.actions <==> CaptainListed(m.Snapshot(), actor, now, action)
    ensures r.pending == if CaptainListed(m.Snapshot(), actor, now, ActRespondTB) then Some(m.pendingTB.value.id) else None
    ensures r == NOTHING.(actions := r.actions, pending := r.pending)
  {
    r := NOTHING;
    if now == 0 || actor.team.None? || !actor.team.value.Valid() { return; }
    if m.lifecycle != Running || m.phase != Pick || m.timer.paused || m.turn < 11 || m.turn > 14 { return; }
    if m.pendingTB.None? {
      r := r.(actions := [ActRequestTB]);
    } else if m.pendingTB.value.requestedBy != actor.team.value {
      r := r.(actions := [ActRespondTB], pending := Some(m.pendingTB.value.id));
    }
  }

  /** What Execute accepts of an actor in a tiebreaker agreement is exactly what the surface of a
      captain offers: a request with an id by agreement, and an answer to the pending request. */
  lemma CaptainSurfaceIsExact(s: State, actor: Actor, now: Time, id: Id, basis: TBBasis, accept: bool)
    requires now != 0 && (s.pendingTB.Some? ==> s.pendingTB.value.id != "")
    ensures Execute(s, actor, RequestTB(id, basis), now).Some?
       <==> actor.capability == Captain && CaptainListed(s, actor, now, ActRequestTB) && id != "" && basis == CaptainAgreement
    ensures Execute(s, actor, RespondTBRequest(id, accept), now).Some?
       <==> actor.capability == Captain && CaptainListed(s, actor, now, ActRespondTB) && id == s.pendingTB.value.id
  {
    hide Execute, DoStartMatch, DoBan, DoPlacePiece, DoPlaceShiro, DoRob, DoGrant, DoCalibrate, DoPause,
      DoResume, DoSuspend, DoResumeMatch, DoSkip, DoAbort, DoStartTB, DoConfirmTB, DoSurrender,
      DoConfirmResult;
    A.DirectIsExecuted(s, actor, RequestTB(id, basis), now);
    A.DirectIsExecuted(s, actor, RespondTBRequest(id, accept), now);
  }

  // ----- referees (availability.go 208-298)

  ghost predicate RefereeLists(s: State, now: Time, r: Surface) {
    && (forall id :: id in r.bans <==> RefereeOpen(s, now) && BanListed(s, id))
    && (forall p :: p in r.placements <==> RefereeOpen(s, now) && PlacementListed(s, p.slotId, p.cell, p.force))
    && (forall c :: c in r.shiroCells <==> RefereeOpen(s, now) && ShiroCellListed(s, c))
    && (forall p :: p in r.plans <==>
          RefereeOpen(s, now) && (PlanListed(s, Red, p.target, p.sets) || PlanListed(s, Blue, p.target, p.sets)))
    && RefereeTBLists(s, now, r)
  }

  predicate RefereeTBLists(s: State, now: Time, r: Surface) {
    && (forall team :: team in r.requestTeams <==> RequestTeamListed(s, now, team))
    && (forall team :: team in r.responseTeams <==> ResponseTeamListed(s, now, team))
    && r.pending == if now != 0 && s.lifecycle == Running && CaptainWindow(s) && s.pendingTB.Some? then Some(s.pendingTB.value.id)
                    else None
  }

  method TimerActions(m: Match, now: Time) returns (actions: seq<Action>)
    requires now != 0 && m.lifecycle == Running
    ensures forall action :: action in actions <==>
      action in {ActResume, ActCalibrate, ActPause, ActGrant, ActSkip} && RefereeListedRunning(m.Snapshot(), now, action)
  {
    actions := [];
    if m.timer.paused { return [ActResume, ActCalibrate]; }
    if m.timer.duration <= 0 { return; }
    actions := [ActPause, ActCalibrate];
    if m.timer.Expired(now) {
      if (m.phase == Ban || m.phase == Pick || m.phase == WaitingForResult) && m.activeTeam.Valid()
         && !Flag(m.used.teamPause, m.activeTeam) {
        actions := actions + [ActGrant];
      }
      if m.phase == Ban || m.phase == Pick { actions := actions + [ActSkip]; }
    }
  }

  // What the referee's rules ask in a pick.
  lemma PickRules(s: State, now: Time, place: bool, shiro: bool, rob: bool)
    requires s.phase == Pick && !s.timer.paused
    requires place <==> exists id, c, force :: PlacementListed(s, id, c, force)
    requires shiro <==> exists c :: ShiroCellListed(s, c)
    requires rob <==> exists team: Team, target, sets :: team.Valid() && PlanListed(s, team, target, sets)
    ensures RefereeListedRunning(s, now, ActPlace) <==> place
    ensures RefereeListedRunning(s, now, ActShiro) <==> shiro
    ensures RefereeListedRunning(s, now, ActRob) <==> rob
    ensures RefereeListedRunning(s, now, ActRequestTB) <==> 11 <= s.turn <= 14 && s.pendingTB.None?
    ensures RefereeListedRunning(s, now, ActRespondTB) <==> 11 <= s.turn <= 14 && s.pendingTB.Some?
  {
    hide PlacementListed, ShiroCellListed, PlanListed;
  }

  method PickActions(m: Match, now: Time) returns (r: Surface)
    requires m.Valid() && now != 0 && m.lifecycle == Running && m.phase == Pick
    ensures RefereeLists(m.Snapshot(), now, r)
    ensures forall action :: action in r.actions <==>
      action in {ActPlace, ActShiro, ActRob, ActRequestTB, ActRespondTB} && RefereeListedRunning(m.Snapshot(), now, action)
  {
    hide RefereeListedRunning, PlacementListed, ShiroCellListed, PlanListed, UniqueIds, Keyed;
    r := NOTHING;
    if m.timer.paused {
      PausedRules(m.Snapshot(), now);
      return;
    }
    var placements, shiroCells := PickLists(m);
    var red := PlanLists(m, Red);
    var blue := PlanLists(m, Blue);
    FirstsAreListed(m.Snapshot(), placements, shiroCells, red, blue);
    PickRules(m.Snapshot(), now, placements != [], shiroCells != [], red + blue != []);
    var actions: seq<Action> := [];
    if placements != [] { actions := actions + [ActPlace]; }
    if shiroCells != [] { actions := actions + [ActShiro]; }
    if red + blue != [] { actions := actions + [ActRob]; }
    r := r.(placements := placements, shiroCells := shiroCells, plans := red + blue);
    if 11 <= m.turn <= 14 {
      if m.pendingTB.None? {
        actions := actions + [ActRequestTB];
        r := r.(requestTeams := [Red, Blue]);
      } else {
        actions := actions + [ActRespondTB];
        r := r.(pending := Some(m.pendingTB.value.id), responseTeams := [m.pendingTB.value.requestedBy.Opponent()]);
      }
    }
    r := r.(actions := actions);
  }

  lemma PausedRules(s: State, now: Time)
    requires s.timer.paused
    ensures forall action | action in {ActPlace, ActShiro, ActRob, ActRequestTB, ActRespondTB} :: !RefereeListedRunning(s, now, action)
  {}

  // A list is non-empty exactly when something is listed.
  lemma FirstsAreListed(s: State, placements: seq<Placement>, shiroCells: seq<Cell>, red: seq<Plan>, blue: seq<Plan>)
    requires forall p :: p in placements <==> PlacementListed(s, p.slotId, p.cell, p.force)
    requires forall c :: c in shiroCells <==> ShiroCellListed(s, c)
    requires forall p :: p in red <==> PlanListed(s, Red, p.target, p.sets)
    requires forall p :: p in blue <==> PlanListed(s, Blue, p.target, p.sets)
    ensures placements != [] <==> exists id, c, force :: PlacementListed(s, id, c, force)
    ensures shiroCells != [] <==> exists c :: ShiroCellListed(s, c)
    ensures red + blue != [] <==> exists team: Team, target, sets :: team.Valid() && PlanListed(s, team, target, sets)
  {
    hide PlacementListed, ShiroCellListed, PlanListed;
    if placements != [] { assert placements[0] in placements; }
    if id, c, force :| PlacementListed(s, id, c, force) { assert Placement(id, c, force) in placements; }
    if shiroCells != [] { assert shiroCells[0] in shiroCells; }
    if red != [] { assert red[0] in red; }
    if blue != [] { assert blue[0] in blue; }
    if team: Team, target, sets :| team.Valid() && PlanListed(s, team, target, sets) {
      assert Plan(target, sets) in red || Plan(target, sets) in blue;
    }
  }

  method BanActions(m: Match, now: Time) returns (r: Surface)
    requires now != 0 && m.lifecycle == Running && m.phase == Ban
    ensures RefereeLists(m.Snapshot(), now, r)
    ensures forall action :: action in r.actions <==> action == ActBan && RefereeListedRunning(m.Snapshot(), now, ActBan)
  {
    hide LegalPlacement, AvailableShiro, Robbery.Planned;
    r := NOTHING;
    if m.timer.paused { return; }
    var bans := BannableSlots(m.pool);
    if bans != [] { assert BanListed(m.Snapshot(), bans[0]); }
    r := r.(actions := if bans != [] then [ActBan] else [], bans := bans);
  }

  // What the referee's rules ask in the phases without a choice.
  lemma PhaseRules(s: State, now: Time, action: Action)
    requires action !in {ActSuspend, ActAbort, ActSurrender, ActResume, ActCalibrate, ActPause, ActGrant, ActSkip}
    ensures s.phase != Ban && s.phase != Pick ==> RefereeLists(s, now, NOTHING)
    ensures s.phase == Ban ==> (RefereeListedRunning(s, now, action) ==> action == ActBan)
    ensures s.phase == Pick ==>
              (RefereeListedRunning(s, now, action) ==> action in {ActPlace, ActShiro, ActRob, ActRequestTB, ActRespondTB})
    ensures s.phase != Ban && s.phase != Pick ==>
              (RefereeListedRunning(s, now, action)
               <==> || (action == ActConfirmResult && s.phase == WaitingForResult)
                    || (action == ActStartTB && s.phase == TBPreparation && !s.timer.paused)
                    || (action == ActConfirmTB && s.phase == TBPlaying))
  {}

  method PhaseActions(m: Match, now: Time) returns (r: Surface)
    requires m.Valid() && now != 0 && m.lifecycle == Running
    ensures RefereeLists(m.Snapshot(), now, r)
    ensures forall action :: action in r.actions <==>
      action !in {ActSuspend, ActAbort, ActSurrender, ActResume, ActCalibrate, ActPause, ActGrant, ActSkip}
      && RefereeListedRunning(m.Snapshot(), now, action)
  {
    hide RefereeListedRunning, BanListed, PlacementListed, ShiroCellListed, PlanListed, UniqueIds, Keyed;
    r := NOTHING;
    PhaseRules(m.Snapshot(), now, ActConfirmResult);
    forall action
        | action !in {ActSuspend, ActAbort, ActSurrender, ActResume, ActCalibrate, ActPause, ActGrant, ActSkip} {
      PhaseRules(m.Snapshot(), now, action);
    }
    match m.phase {
      case Ban => r := BanActions(m, now);
      case Pick => r := PickActions(m, now);
      case WaitingForResult => r := r.(actions := [ActConfirmResult]);
      case TBPreparation => if !m.timer.paused { r := r.(actions := [ActStartTB]); }
      case TBPlaying => r := r.(actions := [ActConfirmTB]);
      case _ =>
    }
  }

  method AnalyzeReferee(m: Match, now: Time) returns (r: Surface)
    requires m.Valid()
    ensures forall action :: action in r.actions <==> RefereeListed(m.Snapshot(), now, action)
    ensures RefereeLists(m.Snapshot(), now, r)
  {
    hide RefereeListedRunning, UniqueIds, Keyed, BanListed, PlacementListed, ShiroCellListed, CaptainWindow;
    r := NOTHING;
    if now == 0 { return; }
    if m.lifecycle == Ready { return NOTHING.(actions := [ActStart]); }
    if m.lifecycle == Suspended {
      var skips := if m.phase == Ban || m.phase == Pick then [ActSkip] else [];
      return NOTHING.(actions := [ActResumeMatch, ActAbort, ActSurrender] + skips);
    }
    if m.lifecycle != Running { return; }
    var timer := TimerActions(m, now);
    r := PhaseActions(m, now);
    AlwaysListed(m.Snapshot(), now);
    r := r.(actions := [ActSuspend, ActAbort, ActSurrender] + timer + r.actions);
  }

  lemma AlwaysListed(s: State, now: Time)
    ensures RefereeListedRunning(s, now, ActSuspend) && RefereeListedRunning(s, now, ActAbort)
    ensures RefereeListedRunning(s, now, ActSurrender)
  {}

  /** AnalyzeForActor: the surface of whoever asks. */
  method AnalyzeForActor(m: Match, actor: Actor, now: Time) returns (r: Surface)
    requires m.Valid()
    ensures actor.capability == Strategist ==> ListsExactly(m.Snapshot(), actor, now, r) && ActionsFollowLists(r)
    ensures actor.capability == Captain ==>
              forall action :: action in r.actions <==> CaptainListed(m.Snapshot(), actor, now, action)
    ensures actor.capability == Referee ==>
              && RefereeLists(m.Snapshot(), now, r)
              && forall action :: action in r.actions <==> RefereeListed(m.Snapshot(), now, action)
    ensures actor.capability == Captain ==>
              && r == NOTHING.(actions := r.actions, pending := r.pending)
              && r.pending == if CaptainListed(m.Snapshot(), actor, now, ActRespondTB) then Some(m.pendingTB.value.id) else None
    ensures actor.capability == OtherCapability ==> r == NOTHING
  {
    hide RefereeListed, CaptainListed, ListsExactly, ActionsFollowLists, RefereeLists, UniqueIds, Keyed;
    match actor.capability {
      case Referee => r := AnalyzeReferee(m, now);
      case Strategist => r := AnalyzeStrategist(m, actor, now);
      case Captain => r := AnalyzeCaptain(m, actor, now);
      case OtherCapability => r := NOTHING;
    }
  }
}
