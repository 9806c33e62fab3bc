/** What play uses up: a measure every ban, placement, confirmation and robbery lowers,
    the number of robberies a match can see, and what no command ever takes back. */
module Conservation {
  import opened MatchModel
  import opened BoardRules
  import opened Rules
  import opened Validation
  import opened Effects
  import opened Runs
  import G = GateExactness
  import Robbery
  import Sets
  import V = Availability

  function CellsOf(b: Board, outcome: Outcome): set<Cell> { set c | c in b && b[c].outcome == outcome }

  function Unsettled(b: Board): nat { |CellsOf(b, WaitingResult)| + |CellsOf(b, White)| }

  /** Free slots, free cells and the outcomes still to come, weighted. */
  function Measure(pool: Pool, b: Board): int {
    |InState(pool, Available)| + 3 * (16 - |b|) + 2 * Unsettled(b) + |CellsOf(b, Won)|
  }

  /** The commands that play the match, as opposed to administering it. */
  predicate Act(command: Command) {
    var c := Underlying(command);
    c.BanPoolSlot? || c.PlacePiece? || c.PlaceShiro? || c.RobPiece? || c.ConfirmBeatmapResult?
  }

  // ----- counting cells under each update

  lemma PlacingCounts(b: Board, c: Cell, p: Piece)
    requires c !in b
    ensures var b' := b[c := p];
            && |CellsOf(b', p.outcome)| == |CellsOf(b, p.outcome)| + 1
            && forall o | o != p.outcome :: CellsOf(b', o) == CellsOf(b, o)
  {
    var b' := b[c := p];
    assert CellsOf(b', p.outcome) == CellsOf(b, p.outcome) + {c};
  }

  // Where ids are unique, giving a piece an owner changes one cell.
  lemma OwnerChangesOneCell(b: Board, c: Cell, team: Team)
    requires UniqueIds(b) && c in b
    ensures SetOwner(b, b[c].id, team) == b[c := b[c].(owner := Some(team), outcome := Won)]
  {}

  lemma SettlingCounts(b: Board, c: Cell, team: Team)
    requires UniqueIds(b) && c in b
    ensures var was, b' := b[c].outcome, SetOwner(b, b[c].id, team);
            && |b'| == |b|
            && (forall o | o != was && o != Won :: CellsOf(b', o) == CellsOf(b, o))
            && (was != Won ==> |CellsOf(b', was)| == |CellsOf(b, was)| - 1 && |CellsOf(b', Won)| == |CellsOf(b, Won)| + 1)
            && (was == Won ==> CellsOf(b', Won) == CellsOf(b, Won))
  {
    var was, b' := b[c].outcome, SetOwner(b, b[c].id, team);
    OwnerChangesOneCell(b, c, team);
    SameCellsSameSize(b, b');
    if was != Won {
      assert CellsOf(b', was) == CellsOf(b, was) - {c};
      assert CellsOf(b', Won) == CellsOf(b, Won) + {c};
    }
  }

  function Killed(b: Board, ids: set<Id>): set<Cell> { set c | c in b && b[c].id in ids }

  lemma KillingMoves(b: Board, ids: set<Id>)
    requires forall c | c in Killed(b, ids) :: b[c].outcome == Won
    ensures CellsOf(MarkDead(b, ids), Won) == CellsOf(b, Won) - Killed(b, ids)
    ensures CellsOf(MarkDead(b, ids), Dead) == CellsOf(b, Dead) + Killed(b, ids)
    ensures Killed(b, ids) <= CellsOf(b, Won) && Killed(b, ids) !! CellsOf(b, Dead)
  {}

  lemma KillingSpares(b: Board, ids: set<Id>, o: Outcome)
    requires forall c | c in Killed(b, ids) :: b[c].outcome == Won
    requires o != Won && o != Dead
    ensures CellsOf(MarkDead(b, ids), o) == CellsOf(b, o)
  {}

  lemma KillingCounts(b: Board, ids: set<Id>)
    requires forall c | c in Killed(b, ids) :: b[c].outcome == Won
    ensures var b' := MarkDead(b, ids);
            && |b'| == |b|
            && |CellsOf(b', Won)| == |CellsOf(b, Won)| - |Killed(b, ids)|
            && |CellsOf(b', Dead)| == |CellsOf(b, Dead)| + |Killed(b, ids)|
            && CellsOf(b', WaitingResult) == CellsOf(b, WaitingResult)
            && CellsOf(b', White) == CellsOf(b, White)
  {
    hide CellsOf, Killed;
    SameCellsSameSize(b, MarkDead(b, ids));
    KillingMoves(b, ids);
    KillingSpares(b, ids, WaitingResult);
    KillingSpares(b, ids, White);
  }

  // ----- what a robbery kills

  lemma AlignmentCells(b: Board, team: Team, ids: seq<Id>, n: nat) returns (at: Cell, d: Dir)
    requires IsAlignment(b, team, ids, n)
    ensures LineLength(n) && Line(b, team, n, at, d)
    ensures forall i | 0 <= i < n :: b[Shift(at, d, i)].id in ids && Shift(at, d, i) in Killed(b, Ids(ids))
  {
    at, d :| Line(b, team, n, at, d) && forall i | 0 <= i < n :: b[Shift(at, d, i)].id in ids;
    forall i | 0 <= i < n ensures Shift(at, d, i) in Killed(b, Ids(ids)) {
      assert Held(b, team, Shift(at, d, i));
      assert b[Shift(at, d, i)].id in ids;
    }
  }

  lemma LineIsLarge(b: Board, team: Team, ids: seq<Id>, n: nat)
    requires IsAlignment(b, team, ids, n)
    ensures |Killed(b, Ids(ids))| >= (if n >= 3 then 3 else 2)
  {
    var at, d := AlignmentCells(b, team, ids, n);
    var some := {Shift(at, d, 0), Shift(at, d, 1)};
    assert |some| == 2;
    Sets.SubsetIsSmaller(some, Killed(b, Ids(ids)));
    if n >= 3 {
      var three := some + {Shift(at, d, 2)};
      assert |three| == 3;
      Sets.SubsetIsSmaller(three, Killed(b, Ids(ids)));
    }
  }

  lemma PairIsLarge(b: Board, team: Team, x: seq<Id>, y: seq<Id>)
    requires IsAlignment(b, team, x, 2) && IsAlignment(b, team, y, 2) && Distinct(x + y)
    ensures |Killed(b, Ids(x + y))| >= 3
  {
    var at, d := AlignmentCells(b, team, x, 2);
    var at', d' := AlignmentCells(b, team, y, 2);
    Robbery.UnionOfSets(x, y);
    var idX: nat, idY: nat, idZ: nat :| idX < 2 && x[idX] == b[Shift(at, d, 0)].id && idY < 2 && x[idY] == b[Shift(at, d, 1)].id
                                        && idZ < 2 && y[idZ] == b[Shift(at', d', 0)].id;
    assert (x + y)[idX] != (x + y)[2 + idZ] && (x + y)[idY] != (x + y)[2 + idZ];
    var three := {Shift(at, d, 0), Shift(at, d, 1), Shift(at', d', 0)};
    assert |three| == 3;
    Sets.SubsetIsSmaller(three, Killed(b, Ids(x + y)));
  }

  lemma SacrificeIsLarge(b: Board, team: Team, target: Piece, sets: seq<seq<Id>>)
    requires Distinct(Flatten(sets)) && RobberyOf(b, team, target, sets)
    ensures |Killed(b, Ids(Flatten(sets)))| >= (if ShiroTarget(target) then 2 else 3)
  {
    hide IsAlignment, RobberyHolds, Flatten, Killed, Distinct;
    if |sets| == 1 {
      assert sets == [sets[0]];
      Robbery.FlattenFew(sets[0], []);
      LineIsLarge(b, team, sets[0], if ShiroTarget(target) then 2 else 3);
    } else {
      assert sets == [sets[0], sets[1]];
      Robbery.FlattenFew(sets[0], sets[1]);
      PairIsLarge(b, team, sets[0], sets[1]);
    }
  }

  // The cells before a position in row-major order.
  function CellsBefore(row: nat, col: nat): set<Cell> {
    if col > 0 then CellsBefore(row, col - 1) + {Cell(col - 1, row)}
    else if row > 0 then CellsBefore(row - 1, 4)
    else {}
  }

  lemma {:induction false} CellsBeforeCount(row: nat, col: nat)
    ensures |CellsBefore(row, col)| <= 4 * row + col
  {
    if col > 0 {
      CellsBeforeCount(row, col - 1);
    } else if row > 0 {
      CellsBeforeCount(row - 1, 4);
    }
  }

  lemma {:induction false} CellsBeforeCover(row: nat, col: nat, c: Cell)
    requires OnBoard(c) && (c.row < row || (c.row == row && c.col < col))
    ensures c in CellsBefore(row, col)
  {
    if col > 0 {
      if c != Cell(col - 1, row) { CellsBeforeCover(row, col - 1, c); }
    } else {
      CellsBeforeCover(row - 1, 4, c);
    }
  }

  lemma BoardIsSmall(b: Board)
    requires forall c | c in b :: OnBoard(c)
    ensures |b| <= 16
  {
    hide CellsBefore;
    forall c | c in b ensures c in CellsBefore(4, 0) { CellsBeforeCover(4, 0, c); }
    CellsBeforeCount(4, 0);
    Sets.SubsetIsSmaller(b.Keys, CellsBefore(4, 0));
    assert |b.Keys| == |b|;
  }

  // The robbed line keeps two pieces alive on the 16 cells.
  lemma LineLeavesFourteen(b: Board, team: Team, n: nat, id: Id)
    requires (forall c | c in b :: OnBoard(c)) && Participates(b, team, id, n)
    ensures |CellsOf(b, Dead)| <= 14
  {
    var c, d, i :| Line(b, team, n, c, d) && 0 <= i < n && b[Shift(c, d, i)].id == id;
    assert Held(b, team, Shift(c, d, 0)) && Held(b, team, Shift(c, d, 1));
    var alive := {Shift(c, d, 0), Shift(c, d, 1)};
    assert |alive| == 2 && alive !! CellsOf(b, Dead);
    BoardIsSmall(b);
    Sets.SubsetIsSmaller(alive + CellsOf(b, Dead), b.Keys);
    assert |b.Keys| == |b|;
  }

  /** Everything a robbery does to the counts. */
  ghost predicate Robs(b: Board, b': Board, shiro: bool) {
    && |b'| == |b|
    && CellsOf(b', WaitingResult) == CellsOf(b, WaitingResult)
    && |CellsOf(b', White)| == |CellsOf(b, White)| - (if shiro then 1 else 0)
    && |CellsOf(b', Dead)| >= |CellsOf(b, Dead)| + (if shiro then 2 else 3)
    && |CellsOf(b', Won)| <= |CellsOf(b, Won)| - (if shiro then 1 else 3)
    && |CellsOf(b', Dead)| <= 14
  }

  ghost predicate TargetsShiro(b: Board, target: Id) { exists c :: c in b && b[c].id == target && ShiroTarget(b[c]) }

  lemma TakeoverCounts(b: Board, team: Team, c: Cell, sacrifice: set<Id>)
    requires UniqueIds(b) && c in b && b[c].outcome in {White, Won} && b[c].id !in sacrifice
    requires forall k | k in Killed(b, sacrifice) :: b[k].outcome == Won
    ensures var b' := BoardAfterRobbery(b, team, b[c].id, sacrifice);
            && |b'| == |b| && CellsOf(b', WaitingResult) == CellsOf(b, WaitingResult)
            && |CellsOf(b', Dead)| == |CellsOf(b, Dead)| + |Killed(b, sacrifice)|
            && |CellsOf(b', White)| == |CellsOf(b, White)| - (if b[c].outcome == White then 1 else 0)
            && |CellsOf(b', Won)| == |CellsOf(b, Won)| - |Killed(b, sacrifice)| + (if b[c].outcome == White then 1 else 0)
  {
    var b1 := MarkDead(b, sacrifice);
    KillingCounts(b, sacrifice);
    forall k | k in b1 ensures CellWith(b1, b1[k].id) == k {
      SameIdSameCell(b, CellWith(b1, b1[k].id), k);
    }
    SettlingCounts(b1, c, team);
  }

  lemma KilledAreWon(b: Board, team: Team, target: Id, sets: seq<seq<Id>>)
    requires UniqueIds(b) && RobberyAccepted(b, team, target, sets)
    ensures forall k | k in Killed(b, Ids(Flatten(sets))) :: b[k].outcome == Won && b[k].owner == Some(team)
  {
    hide RobberyAccepted, Flatten, Ids;
    forall k | k in Killed(b, Ids(Flatten(sets))) ensures b[k].outcome == Won && b[k].owner == Some(team) {
      G.SacrificesAreWon(b, team, target, sets, k);
    }
  }

  lemma TargetIsTaken(b: Board, team: Team, c: Cell, sets: seq<seq<Id>>)
    requires UniqueIds(b) && team.Valid() && (forall k | k in b :: OnBoard(k)) && c in b
    requires Distinct(Flatten(sets)) && RobberyOf(b, team, b[c], sets)
    requires forall k | k in Killed(b, Ids(Flatten(sets))) :: b[k].outcome == Won && b[k].owner == Some(team)
    ensures Robs(b, BoardAfterRobbery(b, team, b[c].id, Ids(Flatten(sets))), ShiroTarget(b[c]))
  {
    hide Flatten, Ids, Distinct, Participates, NormalSacrifice, ShiroSacrifice, BoardAfterRobbery, CellsOf;
    var sacrifice := Ids(Flatten(sets));
    assert c in Killed(b, sacrifice) <==> b[c].id in sacrifice;
    SacrificeIsLarge(b, team, b[c], sets);
    TakeoverCounts(b, team, c, sacrifice);
    RobKeepsCells(b, team, b[c].id, sacrifice);
    LineLeavesFourteen(BoardAfterRobbery(b, team, b[c].id, sacrifice), team, if ShiroTarget(b[c]) then 2 else 3, b[c].id);
  }

  lemma RobberyCounts(b: Board, team: Team, target: Id, sets: seq<seq<Id>>)
    requires UniqueIds(b) && team.Valid() && (forall k | k in b :: OnBoard(k))
    requires RobberyAccepted(b, team, target, sets)
    ensures Robs(b, BoardAfterRobbery(b, team, target, Ids(Flatten(sets))), TargetsShiro(b, target))
  {
    hide Flatten, Ids, Distinct, RobberyOf, BoardAfterRobbery, Robs, Killed;
    var c :| c in b && b[c].id == target && RobberyOf(b, team, b[c], sets);
    KilledAreWon(b, team, target, sets);
    TargetIsTaken(b, team, c, sets);
    forall k | k in b && b[k].id == target ensures k == c { SameIdSameCell(b, k, c); }
  }

  // ----- one step

  ghost predicate Budgeted(s: State, shiro: nat, opponent: nat) {
    && shiro + |CellsOf(s.board, White)| + (if V.AvailableShiro(s.pool) then 1 else 0) == 1
    && 2 * shiro + 3 * opponent <= |CellsOf(s.board, Dead)| <= 14
  }

  predicate IsRobbery(command: Command) { Underlying(command).RobPiece? }

  ghost predicate RobsShiro(s: State, command: Command) {
    IsRobbery(command) && TargetsShiro(s.board, Underlying(command).target)
  }

  ghost predicate RobsOpponent(s: State, command: Command) {
    IsRobbery(command) && !TargetsShiro(s.board, Underlying(command).target)
  }

  /** The whole effect of a step on the counts. */
  ghost predicate Counts(s: State, s': State, command: Command) {
    && (if Act(command) then Measure(s'.pool, s'.board) < Measure(s.pool, s.board)
        else Measure(s'.pool, s'.board) == Measure(s.pool, s.board))
    && (|CellsOf(s.board, White)| + (if V.AvailableShiro(s.pool) then 1 else 0)
        == |CellsOf(s'.board, White)| + (if V.AvailableShiro(s'.pool) then 1 else 0) + (if RobsShiro(s, command) then 1 else 0))
    && (|CellsOf(s'.board, Dead)| >= |CellsOf(s.board, Dead)| + (if RobsShiro(s, command) then 2 else 0)
        + (if RobsOpponent(s, command) then 3 else 0))
    && (|CellsOf(s.board, Dead)| <= 14 ==> |CellsOf(s'.board, Dead)| <= 14)
  }

  // A slot leaves the available ones, and with it the Shiro if it is the Shiro's.
  lemma TakingASlot(pool: Pool, id: Id, to: SlotState)
    requires ValidPool(pool) && id in pool && pool[id].state == Available && to != Available
    ensures var pool' := pool[id := pool[id].(state := to)];
            && |InState(pool', Available)| == |InState(pool, Available)| - 1
            && (V.AvailableShiro(pool') <==> V.AvailableShiro(pool) && pool[id].mod != Shiro)
  {
    var pool' := pool[id := pool[id].(state := to)];
    assert InState(pool', Available) == InState(pool, Available) - {id};
    if V.AvailableShiro(pool) {
      var other :| IsShiroSlot(pool, other) && pool[other].state == Available;
      if pool[id].mod == Shiro {
        forall x | IsShiroSlot(pool', x) ensures x == id {
          assert {x, id} <= SlotsOf(pool, Shiro);
          if x != id { Sets.SubsetIsSmaller({x, id}, SlotsOf(pool, Shiro)); }
        }
      } else {
        assert IsShiroSlot(pool', other) && pool'[other].state == Available;
      }
    }
    if V.AvailableShiro(pool') {
      var other :| IsShiroSlot(pool', other) && pool'[other].state == Available;
      assert IsShiroSlot(pool, other) && pool[other].state == Available;
    }
  }

  lemma BanCounts(s: State, s': State, command: Command)
    requires ValidPool(s.pool) && NetEffect(s, s', command) && Underlying(command).BanPoolSlot?
    ensures Counts(s, s', command)
  {
    hide ValidPool, BanMoves, InState, CellsOf, V.AvailableShiro;
    TakingASlot(s.pool, Underlying(command).slotId, Banned);
  }

  lemma PlacementCounts(s: State, s': State, command: Command)
    requires ValidPool(s.pool) && NetEffect(s, s', command)
    requires Underlying(command).PlacePiece? || Underlying(command).PlaceShiro?
    ensures Counts(s, s', command)
  {
    hide ValidPool, PickMoves, InState, CellsOf, V.AvailableShiro, Empty, ShiroAvailable, TheShiro;
    var c := Underlying(command).cell;
    EmptyMeansAbsent(s.board, c);
    PlacingCounts(s.board, c, s'.board[c]);
    BoardGrows(s.board, s'.board, c);
    if Underlying(command).PlacePiece? {
      TakingASlot(s.pool, Underlying(command).slotId, Selected);
    } else {
      ShiroIsThere(s.pool);
      AvailableShiroIsThere(s.pool, TheShiro(s.pool));
      TakingASlot(s.pool, TheShiro(s.pool), Selected);
    }
  }

  lemma AvailableShiroIsThere(pool: Pool, id: Id)
    requires IsShiroSlot(pool, id) && pool[id].state == Available
    ensures V.AvailableShiro(pool)
  {}

  lemma RobCounts(s: State, s': State, command: Command)
    requires ValidBoard(s.pool, s.board) && NetEffect(s, s', command) && IsRobbery(command)
    ensures Counts(s, s', command)
  {
    hide HasFour, BoardAfterRobbery, RobberyAccepted, InState, CellsOf, V.AvailableShiro, TargetsShiro,
      UniqueSources, HasPieceFrom;
    assert forall k | k in s.board :: ValidPiece(k, s.board[k]);
    RobberyCounts(s.board, s.activeTeam, Underlying(command).target, Underlying(command).sets);
  }

  lemma PendingPieceWaits(s: State) returns (c: Cell)
    requires ValidateState(s) && s.phase == WaitingForResult
    ensures UniqueIds(s.board) && c in s.board && s.board[c].outcome == WaitingResult && s.board[c].id == s.pendingPiece
  {
    hide ValidConfig, ValidUsed, ValidPool, ValidTurnAndTimer, ValidLifecycle, ValidEvidence;
    c :| Waiting(s.board, c) && s.board[c].id == s.pendingPiece;
  }

  lemma ConfirmCounts(s: State, s': State, command: Command)
    requires ValidateState(s) && NetEffect(s, s', command) && Underlying(command).ConfirmBeatmapResult?
    ensures Counts(s, s', command)
  {
    hide ValidateState, HasFour, SetOwner, InState, CellsOf, V.AvailableShiro, PickMoves, UniqueIds;
    var c := PendingPieceWaits(s);
    SettlingCounts(s.board, c, Underlying(command).winningTeam);
  }

  lemma StillCounts(s: State, s': State, command: Command)
    requires NetEffect(s, s', command) && !Act(command)
    ensures Counts(s, s', command)
  {
    hide BanMoves, PickMoves, InState, CellsOf, V.AvailableShiro, TargetsShiro;
    assert Still(s, s');
  }

  lemma StepCounts(s: State, s': State, command: Command)
    requires ValidateState(s) && NetEffect(s, s', command)
    ensures Counts(s, s', command)
  {
    hide Counts, ValidateState, ValidPool, ValidBoard, NetEffect;
    PartsOfValid(s);
    match Underlying(command)
    case BanPoolSlot(_) => BanCounts(s, s', command);
    case PlacePiece(_, _, _) => PlacementCounts(s, s', command);
    case PlaceShiro(_, _) => PlacementCounts(s, s', command);
    case RobPiece(_, _) => RobCounts(s, s', command);
    case ConfirmBeatmapResult(_, _) => ConfirmCounts(s, s', command);
    case _ => StillCounts(s, s', command);
  }

  lemma PartsOfValid(s: State)
    requires ValidateState(s)
    ensures ValidPool(s.pool) && ValidBoard(s.pool, s.board)
  {}

  // ----- whole runs

  ghost function Acts(r: Run): nat {
    match r
    case Start(_) => 0
    case Step(before, _, command, _) => Acts(before) + if Act(command) then 1 else 0
  }

  ghost function ShiroRobberies(r: Run): nat {
    match r
    case Start(_) => 0
    case Step(before, _, command, _) => ShiroRobberies(before) + if RobsShiro(StateOf(before), command) then 1 else 0
  }

  ghost function OpponentRobberies(r: Run): nat {
    match r
    case Start(_) => 0
    case Step(before, _, command, _) => OpponentRobberies(before) + if RobsOpponent(StateOf(before), command) then 1 else 0
  }

  lemma ReadyPool(slots: seq<Slot>)
    requires ValidSlotList(slots)
    ensures InState(PoolOf(slots), Available) == PoolOf(slots).Keys && V.AvailableShiro(PoolOf(slots))
  {
    hide PoolOf, CountMod;
    PoolHoldsSlots(slots);
    PoolCountsSlots(slots, Shiro);
    assert SlotsOf(PoolOf(slots), Shiro) != {};
    var id :| id in SlotsOf(PoolOf(slots), Shiro);
    AvailableShiroIsThere(PoolOf(slots), id);
  }

  lemma ReadyMeasure(c: Configuration)
    requires ValidConfiguration(c)
    ensures Measure(PoolOf(c.slots), map[]) == |PoolOf(c.slots)| + 48
    ensures Budgeted(ReadyState(c), 0, 0)
  {
    hide ValidRosters, ValidSlotList, InState, PoolOf, V.AvailableShiro;
    ReadyPool(c.slots);
    assert |PoolOf(c.slots).Keys| == |PoolOf(c.slots)|;
    forall o ensures CellsOf(map[], o) == {} {}
  }

  /** Bounded play: every ban, placement, confirmation and robbery uses up the measure, and
      no run has more of them than the slots and three per cell. */
  lemma {:induction false} PlayIsBounded(r: Run)
    requires Committed(r)
    ensures Acts(r) + Measure(StateOf(r).pool, StateOf(r).board) <= |StateOf(r).pool| + 48
    ensures 0 <= Measure(StateOf(r).pool, StateOf(r).board)
    ensures Acts(r) <= |StateOf(r).pool| + 48
  {
    hide Execute, ValidateState, NetEffect, Measure, Counts, ReadyState;
    RunIsValid(r);
    MeasureIsNonNegative(StateOf(r));
    match r
    case Start(c) => ReadyMeasure(c); ReadyParts(c);
    case Step(before, _, command, _) =>
      PlayIsBounded(before);
      StepShows(r);
      StepCounts(StateOf(before), StateOf(r), command);
      CountsLowerMeasure(StateOf(before), StateOf(r), command);
      SlotsStay(StateOf(before), StateOf(r), command);
  }

  lemma ReadyParts(c: Configuration)
    ensures ReadyState(c).pool == PoolOf(c.slots) && ReadyState(c).board == map[]
  {}

  lemma MeasureIsNonNegative(s: State)
    requires ValidateState(s)
    ensures 0 <= Measure(s.pool, s.board)
  {
    hide ValidateState;
    PartsOfValid(s);
    BoardIsSmall(s.board);
  }

  lemma CountsLowerMeasure(s: State, s': State, command: Command)
    requires Counts(s, s', command)
    ensures Measure(s'.pool, s'.board) + (if Act(command) then 1 else 0) <= Measure(s.pool, s.board)
  {}

  lemma SlotsStay(s: State, s': State, command: Command)
    requires NetEffect(s, s', command)
    ensures |s'.pool| == |s.pool|
  {
    hide HasFour, BanMoves, PickMoves, BoardAfterRobbery, SetOwner, RobberyAccepted, Empty;
    assert s'.pool.Keys == s.pool.Keys;
    assert |s'.pool.Keys| == |s'.pool| && |s.pool.Keys| == |s.pool|;
  }

  /** In any committed run the Shiro is robbed at most once, and the sacrifices of all
      robberies fit into the 14 cells a robbed line leaves. */
  lemma {:induction false} RobberiesAreBounded(r: Run)
    requires Committed(r)
    ensures Budgeted(StateOf(r), ShiroRobberies(r), OpponentRobberies(r))
    ensures ShiroRobberies(r) <= 1 && 2 * ShiroRobberies(r) + 3 * OpponentRobberies(r) <= 14
  {
    hide Execute, ValidateState, NetEffect, Counts, ReadyState, RobsShiro, RobsOpponent, V.AvailableShiro, CellsOf;
    match r
    case Start(c) => ReadyMeasure(c);
    case Step(before, _, command, _) =>
      RobberiesAreBounded(before);
      StepShows(r);
      StepCounts(StateOf(before), StateOf(r), command);
      CountsSpendBudget(StateOf(before), StateOf(r), command, ShiroRobberies(before), OpponentRobberies(before));
  }

  lemma CountsSpendBudget(s: State, s': State, command: Command, shiro: nat, opponent: nat)
    requires Counts(s, s', command) && Budgeted(s, shiro, opponent)
    ensures Budgeted(s', shiro + (if RobsShiro(s, command) then 1 else 0), opponent + (if RobsOpponent(s, command) then 1 else 0))
  {}

  // ----- what is never taken back

  /** The later state keeps the configuration and every slot and piece of the earlier one. */
  ghost predicate Keeps(s: State, s': State) {
    && s'.config == s.config && s'.pool.Keys == s.pool.Keys && s.board.Keys <= s'.board.Keys
    && (forall id | id in s.pool :: KeepsSlot(s.pool[id], s'.pool[id]))
    && (forall c | c in s.board :: KeepsPiece(s.board[c], s'.board[c]))
  }

  // A BANNED or SELECTED slot stays as it is.
  predicate KeepsSlot(x: Slot, x': Slot) {
    x'.id == x.id && x'.mod == x.mod && (x.state != Available ==> x'.state == x.state)
  }

  // A piece keeps everything but its owner and outcome; a DEAD one keeps those too.
  predicate KeepsPiece(p: Piece, p': Piece) {
    && p' == p.(owner := p'.owner, outcome := p'.outcome)
    && (p.outcome == Dead ==> p' == p)
    && (p'.outcome == WaitingResult ==> p.outcome == WaitingResult)
  }

  lemma TakeoverKeepsPieces(b: Board, team: Team, target: Id, sets: seq<seq<Id>>, c: Cell)
    requires UniqueIds(b) && RobberyAccepted(b, team, target, sets) && c in b
    ensures var b' := BoardAfterRobbery(b, team, target, Ids(Flatten(sets))); c in b' && KeepsPiece(b[c], b'[c])
  {
    hide IsAlignment, Participates, Flatten, NormalSacrifice, ShiroSacrifice, RobberyHolds, Distinct;
    if b[c].id in Ids(Flatten(sets)) {
      G.SacrificesAreWon(b, team, target, sets, c);
    }
    if b[c].id == target {
      var t :| t in b && b[t].id == target && RobberyOf(b, team, b[t], sets);
      SameIdSameCell(b, c, t);
    }
  }

  lemma RobberyKeeps(s: State, s': State, command: Command)
    requires ValidateState(s) && NetEffect(s, s', command) && IsRobbery(command)
    ensures Keeps(s, s')
  {
    hide ValidateState, RobberyAccepted, HasFour, KeepsPiece, FinishedBy, BoardAfterRobbery, UniqueIds, Flatten;
    BoardIsUnique(s);
    RobKeepsCells(s.board, s.activeTeam, Underlying(command).target, Ids(Flatten(Underlying(command).sets)));
    forall c | c in s.board ensures KeepsPiece(s.board[c], s'.board[c]) {
      TakeoverKeepsPieces(s.board, s.activeTeam, Underlying(command).target, Underlying(command).sets, c);
    }
  }

  lemma BoardIsUnique(s: State)
    requires ValidateState(s)
    ensures UniqueIds(s.board)
  {}

  lemma ConfirmationKeeps(s: State, s': State, command: Command)
    requires ValidateState(s) && NetEffect(s, s', command) && Underlying(command).ConfirmBeatmapResult?
    ensures Keeps(s, s')
  {
    hide ValidateState, HasFour, PickMoves, UniqueIds, SetOwner;
    var at := PendingPieceWaits(s);
    OwnerChangesOneCell(s.board, at, Underlying(command).winningTeam);
  }

  lemma StepKeeps(s: State, s': State, command: Command)
    requires ValidateState(s) && NetEffect(s, s', command)
    ensures Keeps(s, s')
  {
    hide ValidateState, NetEffect, Keeps;
    match Underlying(command)
    case RobPiece(_, _) => RobberyKeeps(s, s', command);
    case ConfirmBeatmapResult(_, _) => ConfirmationKeeps(s, s', command);
    case PlacePiece(_, _, _) => PlacementGrows(s, s', command);
    case PlaceShiro(_, _) => PlacementGrows(s, s', command);
    case _ => FieldStays(s, s', command);
  }

  lemma PlacementGrows(s: State, s': State, command: Command)
    requires NetEffect(s, s', command) && (Underlying(command).PlacePiece? || Underlying(command).PlaceShiro?)
    ensures Keeps(s, s')
  {
    hide BanMoves, PickMoves, ShiroAvailable, TheShiro;
    if Underlying(command).PlaceShiro? { ShiroIsThere(s.pool); }
  }

  lemma FieldStays(s: State, s': State, command: Command)
    requires NetEffect(s, s', command) && !IsRobbery(command) && !Underlying(command).ConfirmBeatmapResult?
    requires !Underlying(command).PlacePiece? && !Underlying(command).PlaceShiro?
    ensures Keeps(s, s')
  {
    hide BanMoves, PickMoves;
  }

  ghost predicate Continues(r: Run, r': Run) { r' == r || (r'.Step? && Continues(r, r'.before)) }

  lemma KeepsChains(s: State, s': State, s'': State)
    requires Keeps(s, s') && Keeps(s', s'')
    ensures Keeps(s, s'')
  {}

  /** However a committed run continues: the configuration and the pool's mods are frozen,
      BANNED and SELECTED slots and DEAD pieces stay so, and no piece leaves its cell. */
  lemma {:induction false} NothingIsTakenBack(r: Run, r': Run)
    requires Committed(r') && Continues(r, r')
    ensures Committed(r) && Keeps(StateOf(r), StateOf(r'))
  {
    hide Execute, ValidateState, NetEffect, StateOf;
    if r' != r {
      NothingIsTakenBack(r, r'.before);
      StepShows(r');
      StepKeeps(StateOf(r'.before), StateOf(r'), r'.command);
      KeepsChains(StateOf(r), StateOf(r'.before), StateOf(r'));
    }
  }
}
