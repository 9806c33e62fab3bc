/** Where a match can come to a standstill: exactly which committed runs no command can
    continue (internal/matchengine/engine.go 10-79, validation.go 11-43). */
module Progress {
  import opened MatchModel
  import opened BoardRules
  import opened Rules
  import opened Validation
  import opened Runs
  import A = Acceptance
  import C = Conservation
  import G = GateExactness

  /** The match is finished, aborted or left to adjudication. */
  predicate Over(s: State) { s.lifecycle in {Lifecycle.AdjudicationRequired, Finished, Aborted} }

  /** Suspended while a result is awaited, with no time left to resume with. */
  predicate Stranded(s: State) {
    && s.lifecycle == Suspended && s.phase == WaitingForResult
    && s.suspension.Some? && s.suspension.value.hadTimer && !s.suspension.value.timerWasPaused
    && s.timer.remainingAtPause == 0
  }

  ghost predicate CanGoOn(r: Run, now: Time) { exists actor, command :: Committed(Step(r, actor, command, now)) }

  // What a handler asks of the lifecycle.
  lemma DirectNeedsPlay(s: State, actor: Actor, command: Command, now: Time)
    requires !IsProxy(command) && Direct(s, actor, command, now).Some?
    ensures !Over(s)
    ensures s.lifecycle == Suspended && s.phase == WaitingForResult ==>
              command.ResumeMatch? || command.AbortMatch? || command.RecordSurrender?
  {
    hide AdvanceBan, AdvancePick, RobberyAccepted, PlacementForceMod, SurrenderEvidence, HasFour, ShouldForceTB,
      MissingReason;
  }

  lemma AcceptedIsHandled(s: State, actor: Actor, command: Command, now: Time)
    requires Execute(s, actor, command, now).Some?
    ensures !IsProxy(Underlying(command))
    ensures exists actor', now' :: Direct(s, actor', Underlying(command), now').Some?
  {
    hide Direct;
    if IsStrategistProxy(command) {
      A.ProxyIsExecuted(s, actor, command, now);
      assert Direct(s, StrategistActor(command.actingTeam), Underlying(command), ProxyTime(s, now)).Some?;
    } else if IsCaptainProxy(command) {
      A.CaptainProxyIsExecuted(s, actor, command, now);
      assert Direct(s, CaptainActor(command.actingTeam), Underlying(command), now).Some?;
    } else {
      A.DirectIsExecuted(s, actor, command, now);
      assert Direct(s, actor, Underlying(command), now).Some?;
    }
  }

  lemma NothingGoesOn(r: Run, now: Time)
    requires Committed(r) && now != 0 && (Over(StateOf(r)) || Stranded(StateOf(r)))
    ensures !CanGoOn(r, now)
  {
    hide Execute, Direct, ValidateState, StateOf;
    forall actor, command ensures !Committed(Step(r, actor, command, now)) {
      RunsGoOn(r, actor, command, now);
      if Execute(StateOf(r), actor, command, now).Some? {
        AcceptedIsHandled(StateOf(r), actor, command, now);
        var actor', now' :| Direct(StateOf(r), actor', Underlying(command), now').Some?;
        DirectNeedsPlay(StateOf(r), actor', Underlying(command), now');
      }
    }
  }

  // Awaiting a result takes a timer.
  lemma AwaitingHasTimer(s: State)
    requires ValidateState(s) && s.phase == WaitingForResult
    ensures s.timer.duration > 0
  {}

  /** A command that takes a match on which is neither over nor stranded. */
  function NextCommand(s: State): Command {
    if s.lifecycle == Ready then StartMatch
    else if s.phase != WaitingForResult then AbortMatch("-")
    else if s.lifecycle == Running then ConfirmBeatmapResult(s.pendingPiece, Red)
    else ResumeMatch("-")
  }

  lemma NextIsAccepted(s: State, now: Time)
    requires ValidateState(s) && now != 0 && !Over(s) && !Stranded(s)
    ensures Execute(s, REFEREE_ACTOR, NextCommand(s), now).Some? && !G.Breaks(s, NextCommand(s))
  {
    hide Execute, AdvancePick, HasFour, ValidConfig, ValidUsed, ValidPool, ValidBoard, ValidEvidence;
    assert !IsSpace("-"[0]);
    if s.phase == WaitingForResult {
      AwaitingHasTimer(s);
      var c := C.PendingPieceWaits(s);
      assert HasPiece(s.board, s.pendingPiece);
    }
    A.DirectIsExecuted(s, REFEREE_ACTOR, NextCommand(s), now);
  }

  /** A committed run can go on unless the match is over or stranded, and then it cannot. */
  lemma RunsEndExactly(r: Run, now: Time)
    requires Committed(r) && now != 0
    ensures CanGoOn(r, now) <==> !Over(StateOf(r)) && !Stranded(StateOf(r))
  {
    hide Execute, ValidateState, StateOf, G.Breaks;
    if Over(StateOf(r)) || Stranded(StateOf(r)) {
      NothingGoesOn(r, now);
    } else {
      RunIsValid(r);
      NextIsAccepted(StateOf(r), now);
      RunsGoOn(r, REFEREE_ACTOR, NextCommand(StateOf(r)), now);
    }
  }

  lemma SuspensionStrands(s: State, reason: string, now: Time)
    requires RunningPhase(s, WaitingForResult) && s.timer.duration > 0 && !MissingReason(reason)
    ensures var t := Execute(s, REFEREE_ACTOR, SuspendMatch(reason), now);
            t.Some? && (Stranded(t.value.state) <==> !s.timer.paused && s.timer.Expired(now))
  {
    hide MissingReason;
  }

  /** Suspending a match that awaits a result strands it exactly when its time has run out. */
  lemma SuspendingStrandsExactly(r: Run, reason: string, now: Time)
    requires Committed(r) && now != 0 && !MissingReason(reason) && RunningPhase(StateOf(r), WaitingForResult)
    ensures var r' := Step(r, REFEREE_ACTOR, SuspendMatch(reason), now);
            && Committed(r')
            && (Stranded(StateOf(r')) <==> !StateOf(r).timer.paused && StateOf(r).timer.Expired(now))
  {
    hide ValidateState, Execute, MissingReason;
    RunIsValid(r);
    AwaitingHasTimer(StateOf(r));
    SuspensionStrands(StateOf(r), reason, now);
    RunsGoOn(r, REFEREE_ACTOR, SuspendMatch(reason), now);
  }
}
