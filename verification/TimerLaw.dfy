/** Timer conservation (internal/matchengine/model.go 145-175, engine.go 498-580): pausing
    and suspending stop the timer and nothing else does, whatever their order. */
module TimerLaw {
  import opened MatchModel
  import opened Rules

  datatype Stamp = Stamp(actor: Actor, command: Command, at: Time)

  predicate Timekeeping(c: Command) { c.PauseTimer? || c.ResumeTimer? || c.SuspendMatch? || c.ResumeMatch? }

  /** What a stopwatch beside the match shows: it knows the commands, not the timer. */
  datatype Stopwatch = Stopwatch(paused: bool, suspended: bool, unpaused: Duration, last: Time) {
    predicate Ticking() { !paused && !suspended }

    function At(now: Time): Duration { unpaused + if Ticking() then now - last else 0 }

    function Press(c: Command, now: Time): Stopwatch {
      Stopwatch(if c.PauseTimer? then true else if c.ResumeTimer? then false else paused,
                if c.SuspendMatch? then true else if c.ResumeMatch? then false else suspended,
                At(now), now)
    }
  }

  function Watch(start: Time, steps: seq<Stamp>): Stopwatch {
    if steps == [] then Stopwatch(false, false, 0, start)
    else Watch(start, steps[..|steps| - 1]).Press(steps[|steps| - 1].command, steps[|steps| - 1].at)
  }

  /** Times never go back, and every command is one of the four. */
  predicate InOrder(start: Time, steps: seq<Stamp>) {
    && (forall i | 0 <= i < |steps| :: Timekeeping(steps[i].command) && start <= steps[i].at)
    && (forall i, j | 0 <= i < j < |steps| :: steps[i].at <= steps[j].at)
  }

  /** The state after all steps, if Execute accepts every one. */
  ghost function After(s: State, steps: seq<Stamp>): Option<State> {
    if steps == [] then Some(s)
    else
      var mid, last := After(s, steps[..|steps| - 1]), steps[|steps| - 1];
      if mid.None? then None
      else
        var t := Execute(mid.value, last.actor, last.command, last.at);
        if t.None? then None else Some(t.value.state)
  }

  function Left(duration: Duration, unpaused: Duration): Duration {
    if duration < unpaused then 0 else duration - unpaused
  }

  /** The timer shows what the stopwatch leaves of the duration; while something is left,
      it is stopped exactly when the stopwatch is. */
  predicate Agrees(s: State, watch: Stopwatch, duration: Duration) {
    var left := Left(duration, watch.unpaused);
    && 0 <= watch.unpaused
    && (s.lifecycle == Suspended <==> watch.suspended) && s.lifecycle in {Running, Suspended}
    && (watch.suspended ==> s.suspension.Some?)
    && (watch.suspended && s.suspension.value.hadTimer && !s.suspension.value.timerWasPaused ==> s.timer.paused)
    && (s.timer.paused ==> s.timer.remainingAtPause == left)
    && (!s.timer.paused ==>
          && s.timer.startedAt <= watch.last && 0 <= s.timer.duration
          && Left(s.timer.duration, watch.last - s.timer.startedAt) == left)
    && (left > 0 ==> (s.timer.paused <==> !watch.Ticking()))
    && (left > 0 && watch.suspended ==> s.suspension.value.hadTimer && s.suspension.value.timerWasPaused == watch.paused)
  }

  lemma StepAgrees(s: State, watch: Stopwatch, duration: Duration, step: Stamp)
    requires Agrees(s, watch, duration) && Timekeeping(step.command) && watch.last <= step.at
    requires Execute(s, step.actor, step.command, step.at).Some?
    ensures Agrees(Execute(s, step.actor, step.command, step.at).value.state, watch.Press(step.command, step.at), duration)
  {
    hide MissingReason, DoStartMatch, DoBan, DoPlacePiece, DoPlaceShiro, DoRob, DoGrant, DoCalibrate, DoSkip,
      DoAbort, DoRequestTB, DoRespondTB, DoStartTB, DoConfirmTB, DoSurrender, DoConfirmResult;
  }

  lemma {:induction false} RunAgrees(s: State, duration: Duration, start: Time, steps: seq<Stamp>)
    requires s.lifecycle == Running && s.timer == StartTimer(start, duration) && 0 <= duration
    requires InOrder(start, steps) && After(s, steps).Some?
    ensures Agrees(After(s, steps).value, Watch(start, steps), duration)
    ensures forall i | 0 <= i < |steps| :: steps[i].at <= Watch(start, steps).last
    ensures start <= Watch(start, steps).last
  {
    hide Execute, Agrees;
    if steps == [] {
      StartAgrees(s, duration, start);
    } else {
      var front, last := steps[..|steps| - 1], steps[|steps| - 1];
      RunAgrees(s, duration, start, front);
      assert front == [] || front[|front| - 1].at <= last.at;
      WatchEndsAtLast(start, front);
      StepAgrees(After(s, front).value, Watch(start, front), duration, last);
    }
  }

  lemma StartAgrees(s: State, duration: Duration, start: Time)
    requires s.lifecycle == Running && s.timer == StartTimer(start, duration) && 0 <= duration
    ensures Agrees(s, Stopwatch(false, false, 0, start), duration)
  {}

  lemma WatchEndsAtLast(start: Time, steps: seq<Stamp>)
    ensures Watch(start, steps).last == if steps == [] then start else steps[|steps| - 1].at
  {}

  /** However a timer started with a duration is paused, resumed, suspended and resumed
      with the match, it shows the duration less the time it was not stopped. */
  lemma TimerIsConserved(s: State, duration: Duration, start: Time, steps: seq<Stamp>, now: Time)
    requires s.lifecycle == Running && s.timer == StartTimer(start, duration) && 0 <= duration
    requires InOrder(start, steps) && After(s, steps).Some?
    requires start <= now && forall i | 0 <= i < |steps| :: steps[i].at <= now
    ensures After(s, steps).value.timer.Remaining(now) == Left(duration, Watch(start, steps).At(now))
  {
    hide Execute, After, Watch;
    RunAgrees(s, duration, start, steps);
    WatchEndsAtLast(start, steps);
  }
}
