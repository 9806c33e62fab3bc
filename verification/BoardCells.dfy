/** Lines and robberies by the cells of the board (internal/matchengine/board.go 122-252,
    internal/matchengine/engine.go 287-396), without directions, probes or lists of alignments. */
module BoardCells {
  import opened MatchModel
  import opened BoardRules
  import opened Rules
  import opened Validation
  import A = Acceptance

  // ----- rows

  /** One cell further: sideways, up or down, or diagonally, in any of the eight directions. */
  predicate Step(dx: int, dy: int) { -1 <= dx <= 1 && -1 <= dy <= 1 && (dx != 0 || dy != 0) }

  function Along(c: Cell, dx: int, dy: int, i: int): Cell { Cell(c.col + i * dx, c.row + i * dy) }

  /** The cell is on the board and holds a piece the team has won. */
  predicate Owns(b: Board, team: Team, c: Cell) {
    && c.col in {0, 1, 2, 3} && c.row in {0, 1, 2, 3}
    && c in b && b[c].outcome == Won && b[c].owner == Some(team)
  }

  /** The team owns n cells one after another. */
  predicate Row(b: Board, team: Team, n: nat, c: Cell, dx: int, dy: int) {
    Step(dx, dy) && forall i | 0 <= i < n :: Owns(b, team, Along(c, dx, dy, i))
  }

  function StepOf(d: Dir): (int, int) {
    match d
    case East => (1, 0)
    case South => (0, 1)
    case SouthEast => (1, 1)
    case NorthEast => (1, -1)
  }

  lemma LineIsRow(b: Board, team: Team, n: nat, c: Cell, d: Dir)
    requires Line(b, team, n, c, d)
    ensures Row(b, team, n, c, StepOf(d).0, StepOf(d).1)
    ensures forall i | 0 <= i < n :: Along(c, StepOf(d).0, StepOf(d).1, i) == Shift(c, d, i)
  {
    forall i | 0 <= i < n ensures Owns(b, team, Along(c, StepOf(d).0, StepOf(d).1, i)) {
      assert Held(b, team, Shift(c, d, i));
    }
  }

  // A row that runs against the four directions is a line read from its other end.
  function DirOf(dx: int, dy: int): Dir {
    if dx == 0 then South else if dy == 0 then East else if dx == dy then SouthEast else NorthEast
  }

  predicate Forward(dx: int, dy: int) { dx == 1 || (dx == 0 && dy == 1) }

  lemma RowIsLine(b: Board, team: Team, n: nat, c: Cell, dx: int, dy: int) returns (start: Cell)
    requires Row(b, team, n, c, dx, dy) && n > 0
    ensures Line(b, team, n, start, DirOf(dx, dy))
    ensures forall i | 0 <= i < n ::
              Along(c, dx, dy, i) == Shift(start, DirOf(dx, dy), if Forward(dx, dy) then i else n - 1 - i)
  {
    hide Along, Shift, DirOf, Step, Forward;
    start := if Forward(dx, dy) then c else Along(c, dx, dy, n - 1);
    forall i | 0 <= i < n
      ensures Along(c, dx, dy, i) == Shift(start, DirOf(dx, dy), if Forward(dx, dy) then i else n - 1 - i)
    {
      SameCell(c, dx, dy, n, i);
    }
    forall i | 0 <= i < n ensures Held(b, team, Shift(start, DirOf(dx, dy), i)) {
      var k := if Forward(dx, dy) then i else n - 1 - i;
      SameCell(c, dx, dy, n, k);
      assert Owns(b, team, Along(c, dx, dy, k));
    }
  }

  lemma SameCell(c: Cell, dx: int, dy: int, n: nat, k: nat)
    requires Step(dx, dy) && k < n
    ensures Forward(dx, dy) ==> Along(c, dx, dy, k) == Shift(c, DirOf(dx, dy), k)
    ensures !Forward(dx, dy) ==> Along(c, dx, dy, k) == Shift(Along(c, dx, dy, n - 1), DirOf(dx, dy), n - 1 - k)
  {
    if dx == 0 { if dy == 1 {} else { assert dy == -1; } } else if dx == 1 {} else { assert dx == -1; }
  }

  /** The pieces of a row have these ids, in some order. */
  ghost predicate InRow(b: Board, team: Team, ids: seq<Id>, n: nat) {
    && |ids| == n && (forall i, j | 0 <= i < j < n :: ids[i] != ids[j]) && "" !in ids && team != NoTeam && 2 <= n <= 4
    && exists c, dx, dy :: Row(b, team, n, c, dx, dy) && forall i | 0 <= i < n :: b[Along(c, dx, dy, i)].id in ids
  }

  /** The piece stands in a row. */
  ghost predicate StandsInRow(b: Board, team: Team, id: Id, n: nat) {
    && id != "" && team != NoTeam && 2 <= n <= 4
    && exists c, dx, dy, i :: Row(b, team, n, c, dx, dy) && 0 <= i < n && b[Along(c, dx, dy, i)].id == id
  }

  /** Four in a row, whichever way it runs, and no shorter one. */
  lemma FourIsARow(b: Board, team: Team)
    ensures HasFour(b, team) <==> team != NoTeam && exists c, dx, dy :: Row(b, team, 4, c, dx, dy)
  {
    if HasFour(b, team) {
      var c, d :| Line(b, team, 4, c, d);
      LineIsRow(b, team, 4, c, d);
    }
    if c, dx, dy :| team != NoTeam && Row(b, team, 4, c, dx, dy) {
      var start := RowIsLine(b, team, 4, c, dx, dy);
    }
  }

  /** What the alignment checks accept: the ids of a row, and the pieces that stand in one. */
  lemma AlignmentsAreRows(b: Board, team: Team, ids: seq<Id>, id: Id, n: nat)
    ensures IsAlignment(b, team, ids, n) <==> InRow(b, team, ids, n)
    ensures Participates(b, team, id, n) <==> StandsInRow(b, team, id, n)
  {
    IdsAreRow(b, team, ids, n);
    PieceIsInRow(b, team, id, n);
  }

  lemma IdsAreRow(b: Board, team: Team, ids: seq<Id>, n: nat)
    ensures IsAlignment(b, team, ids, n) <==> InRow(b, team, ids, n)
  {
    if IsAlignment(b, team, ids, n) {
      var c, d :| Line(b, team, n, c, d) && forall i | 0 <= i < n :: b[Shift(c, d, i)].id in ids;
      LineIsRow(b, team, n, c, d);
    }
    if InRow(b, team, ids, n) {
      var c, dx, dy :| Row(b, team, n, c, dx, dy) && forall i | 0 <= i < n :: b[Along(c, dx, dy, i)].id in ids;
      var start := RowIsLine(b, team, n, c, dx, dy);
      forall i | 0 <= i < n ensures b[Shift(start, DirOf(dx, dy), i)].id in ids {
        var k := if Forward(dx, dy) then i else n - 1 - i;
        assert Along(c, dx, dy, k) == Shift(start, DirOf(dx, dy), i);
      }
    }
  }

  lemma PieceIsInRow(b: Board, team: Team, id: Id, n: nat)
    ensures Participates(b, team, id, n) <==> StandsInRow(b, team, id, n)
  {
    if Participates(b, team, id, n) {
      var c, d, i :| Line(b, team, n, c, d) && 0 <= i < n && b[Shift(c, d, i)].id == id;
      LineIsRow(b, team, n, c, d);
      assert b[Along(c, StepOf(d).0, StepOf(d).1, i)].id == id;
    }
    if StandsInRow(b, team, id, n) {
      var c, dx, dy, i :| Row(b, team, n, c, dx, dy) && 0 <= i < n && b[Along(c, dx, dy, i)].id == id;
      var start := RowIsLine(b, team, n, c, dx, dy);
      assert b[Shift(start, DirOf(dx, dy), if Forward(dx, dy) then i else n - 1 - i)].id == id;
    }
  }

  // ----- robbery

  /** The Shiro that nobody owns, or a piece the other team has won. */
  predicate Robbable(p: Piece, team: Team) {
    || (p.mod == Shiro && p.outcome == White && p.owner.None?)
    || (p.outcome == Won && p.owner == Some(if team == Red then Blue else Red))
  }

  /** The cells whose pieces are given up. */
  function GivenUp(b: Board, sets: seq<seq<Id>>): set<Cell> {
    set c | c in b && exists i :: 0 <= i < |sets| && b[c].id in sets[i]
  }

  /** The target is the team's; what was given up is dead; everything else stays. */
  function Robbed(b: Board, team: Team, target: Cell, given: set<Cell>): Board {
    map c | c in b ::
      if c == target then b[c].(owner := Some(team), outcome := Won)
      else if c in given then b[c].(outcome := Dead)
      else b[c]
  }

  predicate PaysOnce(sets: seq<seq<Id>>) {
    forall i, j | 0 <= i < j < |sets| :: forall id | id in sets[i] :: id !in sets[j]
  }

  /** Two pieces in a row buy the Shiro into a row of two; three in a row, or twice two, buy a
      piece of the opponent into a row of three. No piece pays twice. */
  ghost predicate Robs(b: Board, team: Team, target: Cell, sets: seq<seq<Id>>) {
    && target in b && Robbable(b[target], team)
    && PaysOnce(sets)
    && var white := b[target].outcome == White;
       && (|| (|sets| == 1 && InRow(b, team, sets[0], if white then 2 else 3))
           || (!white && |sets| == 2 && InRow(b, team, sets[0], 2) && InRow(b, team, sets[1], 2)))
       && StandsInRow(Robbed(b, team, target, GivenUp(b, sets)), team, b[target].id, if white then 2 else 3)
  }

  lemma FlattenOfOne(x: seq<Id>)
    ensures Flatten([x]) == x
  {
    assert [x][..0] == [];
  }

  lemma FlattenOfTwo(x: seq<Id>, y: seq<Id>)
    ensures Flatten([x, y]) == x + y
  {
    assert [x, y][..1] == [x];
    FlattenOfOne(x);
  }

  lemma DistinctPayment(sets: seq<seq<Id>>)
    requires |sets| == 1 || |sets| == 2
    requires forall k | 0 <= k < |sets| :: Distinct(sets[k])
    ensures Distinct(Flatten(sets)) <==> PaysOnce(sets)
  {
    if |sets| == 1 {
      assert sets == [sets[0]];
      FlattenOfOne(sets[0]);
    } else {
      var x, y := sets[0], sets[1];
      assert sets == [x, y];
      FlattenOfTwo(x, y);
      if Distinct(x + y) {
        forall id | id in x ensures id !in y {
          var i :| 0 <= i < |x| && x[i] == id;
          forall j | 0 <= j < |y| ensures y[j] != id { assert (x + y)[i] != (x + y)[|x| + j]; }
        }
      }
      if PaysOnce(sets) {
        forall i, j | 0 <= i < j < |x + y| ensures (x + y)[i] != (x + y)[j] {
          if i < |x| <= j { assert x[i] in sets[0] && y[j - |x|] in sets[1]; }
        }
      }
    }
  }

  lemma PaidCells(b: Board, sets: seq<seq<Id>>, c: Cell)
    requires c in b && (|sets| == 1 || |sets| == 2)
    ensures b[c].id in Ids(Flatten(sets)) <==> c in GivenUp(b, sets)
  {
    if |sets| == 1 {
      assert sets == [sets[0]];
      FlattenOfOne(sets[0]);
    } else {
      assert sets == [sets[0], sets[1]];
      FlattenOfTwo(sets[0], sets[1]);
    }
    var flat := Flatten(sets);
    assert b[c].id in Ids(flat) <==> b[c].id in flat;
    if |sets| == 2 { assert b[c].id in flat <==> b[c].id in sets[0] || b[c].id in sets[1]; }
  }

  lemma RobbedBoard(b: Board, team: Team, target: Cell, sets: seq<seq<Id>>)
    requires UniqueIds(b) && target in b && (|sets| == 1 || |sets| == 2)
    ensures BoardAfterRobbery(b, team, b[target].id, Ids(Flatten(sets))) == Robbed(b, team, target, GivenUp(b, sets))
  {
    hide UniqueIds, Flatten;
    forall c | c in b
      ensures b[c].id == b[target].id <==> c == target
      ensures b[c].id in Ids(Flatten(sets)) <==> c in GivenUp(b, sets)
    {
      if b[c].id == b[target].id { SameIdSameCell(b, c, target); }
      PaidCells(b, sets, c);
    }
  }

  /** RobPiece's rule, cell by cell: there is one cell the robbery is of, and the board after it
      is the robbed one. */
  lemma RobberyIsOfACell(b: Board, team: Team, target: Cell, sets: seq<seq<Id>>)
    requires UniqueIds(b) && target in b && team.Valid()
    ensures RobberyAccepted(b, team, b[target].id, sets) <==> Robs(b, team, target, sets)
    ensures Robs(b, team, target, sets) ==>
              BoardAfterRobbery(b, team, b[target].id, Ids(Flatten(sets))) == Robbed(b, team, target, GivenUp(b, sets))
  {
    hide IsAlignment, InRow, Participates, StandsInRow, UniqueIds, Flatten, BoardAfterRobbery, Robbed, GivenUp;
    forall c | c in b && b[c].id == b[target].id ensures c == target { SameIdSameCell(b, c, target); }
    if |sets| == 1 || |sets| == 2 {
      RobbedBoard(b, team, target, sets);
      forall k, n: nat | 0 <= k < |sets| ensures IsAlignment(b, team, sets[k], n) <==> InRow(b, team, sets[k], n) {
        IdsAreRow(b, team, sets[k], n);
      }
      forall n: nat
        ensures var after := Robbed(b, team, target, GivenUp(b, sets));
                Participates(after, team, b[target].id, n) <==> StandsInRow(after, team, b[target].id, n)
      {
        PieceIsInRow(Robbed(b, team, target, GivenUp(b, sets)), team, b[target].id, n);
      }
      RowsAreDistinct(b, team, sets);
    }
    assert HasPiece(b, b[target].id);
  }

  lemma RowsAreDistinct(b: Board, team: Team, sets: seq<seq<Id>>)
    requires |sets| == 1 || |sets| == 2
    ensures (forall k | 0 <= k < |sets| :: exists n: nat :: InRow(b, team, sets[k], n)) ==>
              (Distinct(Flatten(sets)) <==> PaysOnce(sets))
  {
    if forall k | 0 <= k < |sets| :: exists n: nat :: InRow(b, team, sets[k], n) { DistinctPayment(sets); }
  }

  /** In every valid state and for every actor: a robbery is accepted exactly if the active
      strategist makes it and some cell is robbed by it, and then the board is the robbed one. */
  lemma RobberiesByCell(s: State, actor: Actor, target: Id, sets: seq<seq<Id>>, now: Time)
    requires ValidateState(s)
    ensures Execute(s, actor, RobPiece(target, sets), now).Some?
       <==> StrategistMay(s, actor, Pick, now)
            && exists c :: c in s.board && s.board[c].id == target && Robs(s.board, s.activeTeam, c, sets)
    ensures forall c | c in s.board && s.board[c].id == target && Execute(s, actor, RobPiece(target, sets), now).Some? ::
              Execute(s, actor, RobPiece(target, sets), now).value.state.board
              == Robbed(s.board, s.activeTeam, c, GivenUp(s.board, sets))
  {
    hide ValidateState, Execute, RobberyAccepted, Robs, Robbed, GivenUp, BoardAfterRobbery;
    BoardHasIds(s);
    A.RobAccepted(s, actor, target, sets, now);
    if StrategistMay(s, actor, Pick, now) {
      forall c | c in s.board && s.board[c].id == target { RobberyIsOfACell(s.board, s.activeTeam, c, sets); }
      if RobberyAccepted(s.board, s.activeTeam, target, sets) { AcceptedHasTarget(s.board, s.activeTeam, target, sets); }
      RobbedState(s, actor, target, sets, now);
    }
  }

  lemma AcceptedHasTarget(b: Board, team: Team, target: Id, sets: seq<seq<Id>>)
    requires RobberyAccepted(b, team, target, sets)
    ensures exists c :: c in b && b[c].id == target
  {}

  lemma RobbedState(s: State, actor: Actor, target: Id, sets: seq<seq<Id>>, now: Time)
    ensures Execute(s, actor, RobPiece(target, sets), now).Some? ==>
              Execute(s, actor, RobPiece(target, sets), now).value.state.board
              == BoardAfterRobbery(s.board, s.activeTeam, target, Ids(Flatten(sets)))
  {
    hide RobberyAccepted, BoardAfterRobbery, HasFour, ForcedTBRequirementsMet, StrategistMay;
  }

  lemma BoardHasIds(s: State)
    requires ValidateState(s)
    ensures UniqueIds(s.board)
  {}
}
