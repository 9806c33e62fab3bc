/** Execute rejects a handler that emits no event (engine.go 73-76). No handler is one,
    so a command is accepted exactly when its handler accepts it. */
module Acceptance {
  import opened MatchModel
  import opened BoardRules
  import opened Rules

  lemma PlayEmits(s: State, actor: Actor, command: Command, now: Time)
    requires command.BanPoolSlot? || command.PlacePiece? || command.PlaceShiro? || command.RobPiece?
          || command.SkipCurrentAction? || command.ConfirmBeatmapResult?
    ensures Direct(s, actor, command, now).Some? ==> Direct(s, actor, command, now).value.events != []
  {
    hide EnterPickOrTerminal, StrategistMay, FreshPieceId, PlacementForceMod, MissingReason, PickTeam,
      ShiroAvailable, RobberyAccepted, HasFour, BoardAfterRobbery, SetOwner, HasPiece, ShouldForceTB;
  }

  lemma AdminEmits(s: State, actor: Actor, command: Command, now: Time)
    requires !IsProxy(command)
    requires !(command.BanPoolSlot? || command.PlacePiece? || command.PlaceShiro? || command.RobPiece?
               || command.SkipCurrentAction? || command.ConfirmBeatmapResult?)
    ensures Direct(s, actor, command, now).Some? ==> Direct(s, actor, command, now).value.events != []
  {
    hide SurrenderEvidence, MissingReason;
  }

  lemma DirectIsExecuted(s: State, actor: Actor, command: Command, now: Time)
    requires !IsProxy(command)
    ensures Execute(s, actor, command, now).Some? <==> Direct(s, actor, command, now).Some?
  {
    hide Direct;
    if command.BanPoolSlot? || command.PlacePiece? || command.PlaceShiro? || command.RobPiece?
       || command.SkipCurrentAction? || command.ConfirmBeatmapResult? {
      PlayEmits(s, actor, command, now);
    } else {
      AdminEmits(s, actor, command, now);
    }
  }

  lemma ProxyIsExecuted(s: State, actor: Actor, command: Command, now: Time)
    requires IsStrategistProxy(command)
    ensures Execute(s, actor, command, now).Some?
        <==> (&& ProxyAllowed(actor, command.actingTeam, command.reason)
              && Direct(s, StrategistActor(command.actingTeam), Underlying(command), ProxyTime(s, now)).Some?)
  {
    hide Direct;
  }

  lemma CaptainProxyIsExecuted(s: State, actor: Actor, command: Command, now: Time)
    requires IsCaptainProxy(command)
    ensures Execute(s, actor, command, now).Some?
        <==> (&& ProxyAllowed(actor, command.actingTeam, command.reason)
              && Direct(s, CaptainActor(command.actingTeam), Underlying(command), now).Some?)
  {
    hide Direct;
  }

  // ----- the strategist's four commands, by their guards

  lemma BanAccepted(s: State, actor: Actor, slotId: Id, now: Time)
    ensures Execute(s, actor, BanPoolSlot(slotId), now).Some?
        <==> StrategistMay(s, actor, Ban, now) && slotId in s.pool && Bannable(s.pool[slotId])
  {
    hide Execute, AdvanceBan, StrategistMay;
    DirectIsExecuted(s, actor, BanPoolSlot(slotId), now);
  }

  lemma PlaceAccepted(s: State, actor: Actor, slotId: Id, pieceId: Id, c: Cell, now: Time)
    ensures Execute(s, actor, PlacePiece(slotId, pieceId, c), now).Some?
        <==> (&& StrategistMay(s, actor, Pick, now) && FreshPieceId(s.board, pieceId)
              && slotId in s.pool && Bannable(s.pool[slotId]) && Empty(s.board, c)
              && PlacementForceMod(s.pool[slotId].mod, ZoneAt(c)).Some?)
  {
    hide Execute, StrategistMay, FreshPieceId, Empty, PlacementForceMod;
    DirectIsExecuted(s, actor, PlacePiece(slotId, pieceId, c), now);
  }

  lemma ShiroAccepted(s: State, actor: Actor, pieceId: Id, c: Cell, now: Time)
    ensures Execute(s, actor, PlaceShiro(pieceId, c), now).Some?
        <==> (&& StrategistMay(s, actor, Pick, now) && FreshPieceId(s.board, pieceId) && Empty(s.board, c)
              && ShiroAvailable(s.pool))
  {
    hide Execute, StrategistMay, FreshPieceId, Empty, AdvancePick, ShiroAvailable;
    DirectIsExecuted(s, actor, PlaceShiro(pieceId, c), now);
  }

  lemma RobAccepted(s: State, actor: Actor, target: Id, sets: seq<seq<Id>>, now: Time)
    ensures Execute(s, actor, RobPiece(target, sets), now).Some?
        <==> StrategistMay(s, actor, Pick, now) && RobberyAccepted(s.board, s.activeTeam, target, sets)
  {
    hide Execute, StrategistMay, RobberyAccepted, HasFour, ShouldForceTB, BoardAfterRobbery;
    DirectIsExecuted(s, actor, RobPiece(target, sets), now);
  }
}
