/** Analyze of internal/matchengine/availability.go 75-131: what can still be placed, the won
    counts and whether play is stuck. */
module Analyses {
  import opened MatchModel
  import opened BoardRules
  import opened PlayingBoards
  import opened Rules

  datatype Placement = Placement(slotId: Id, cell: Cell, force: Option<ForceMod>)

  datatype Analysis = Analysis(
    selectable: seq<Id>, emptyCells: seq<Cell>, legalCells: map<Id, seq<Cell>>, placements: seq<Placement>,
    redWon: nat, blueWon: nat, stalemate: bool)

  /** The placement list has the pair, with the Force Mod the piece would carry: Shiro lies
      anywhere, a beatmap where its mod may. */
  predicate Offered(pool: Pool, b: Board, p: Placement) {
    && p.slotId in pool && pool[p.slotId].state == Available && OnBoard(p.cell) && p.cell !in b
    && (pool[p.slotId].mod == Shiro || MayLie(pool[p.slotId].mod, p.cell)) && p.force == ForceOf(pool[p.slotId].mod, p.cell)
  }

  /** The piece of the slot would be offered the cell. */
  predicate CellOffered(pool: Pool, b: Board, id: Id, c: Cell) {
    id in pool && Offered(pool, b, Placement(id, c, ForceOf(pool[id].mod, c)))
  }

  lemma OfferedIsLegal(pool: Pool, b: Board, id: Id, c: Cell)
    ensures LegalPlacement(pool, b, id, c) <==> CellOffered(pool, b, id, c)
  {
    if id in pool { ForceByCell(pool[id].mod, c); }
  }

  method EmptyCells(board: PlayingBoard) returns (cells: seq<Cell>)
    ensures forall c :: c in cells <==> Empty(board.pieces, c)
  {
    cells := [];
    for row := 0 to 4
      invariant forall c :: c in cells <==> Empty(board.pieces, c) && c.row < row
    {
      for col := 0 to 4
        invariant forall c :: c in cells <==> Empty(board.pieces, c) && (c.row < row || (c.row == row && c.col < col))
      {
        if board.IsEmpty(Cell(col, row)) { cells := cells + [Cell(col, row)]; }
      }
    }
  }

  function WonAmong(b: Board, cells: set<Cell>, team: Team): set<Cell> {
    set c | c in cells && c in b && b[c].outcome == Won && b[c].owner == Some(team)
  }

  method WonCounts(board: PlayingBoard) returns (red: nat, blue: nat)
    ensures red == WonCount(board.pieces, Red) && blue == WonCount(board.pieces, Blue)
  {
    hide WonCount;
    red, blue := 0, 0;
    var todo := board.pieces.Keys;
    ghost var b := board.pieces;
    while todo != {}
      invariant todo <= b.Keys
      invariant red == |WonAmong(b, b.Keys - todo, Red)| && blue == |WonAmong(b, b.Keys - todo, Blue)|
    {
      var c :| c in todo;
      var piece := board.pieces[c];
      OneMoreWon(b, b.Keys - todo, c, Red);
      OneMoreWon(b, b.Keys - todo, c, Blue);
      assert b.Keys - (todo - {c}) == (b.Keys - todo) + {c};
      todo := todo - {c};
      if piece.outcome == Won && piece.owner.Some? && piece.owner.value.Valid() {
        if piece.owner.value == Red { red := red + 1; } else { blue := blue + 1; }
      }
    }
    assert b.Keys - todo == b.Keys;
    AllWon(b, Red);
    AllWon(b, Blue);
  }

  lemma OneMoreWon(b: Board, cells: set<Cell>, c: Cell, team: Team)
    requires c in b && c !in cells
    ensures |WonAmong(b, cells + {c}, team)|
         == |WonAmong(b, cells, team)| + if b[c].outcome == Won && b[c].owner == Some(team) then 1 else 0
  {
    if b[c].outcome == Won && b[c].owner == Some(team) {
      assert WonAmong(b, cells + {c}, team) == WonAmong(b, cells, team) + {c};
    } else {
      assert WonAmong(b, cells + {c}, team) == WonAmong(b, cells, team);
    }
  }

  lemma AllWon(b: Board, team: Team)
    ensures |WonAmong(b, b.Keys, team)| == WonCount(b, team)
  {
    assert WonAmong(b, b.Keys, team) == set c | c in b && b[c].outcome == Won && b[c].owner == Some(team);
  }

  method SelectableSlots(pool: Pool) returns (ids: seq<Id>)
    ensures forall id :: id in ids <==> id in pool && Selectable(pool[id])
  {
    ids := [];
    var todo := pool.Keys;
    while todo != {}
      invariant todo <= pool.Keys
      invariant forall id :: id in ids <==> id in pool && id !in todo && Selectable(pool[id])
    {
      var id :| id in todo;
      todo := todo - {id};
      if pool[id].state == Available && pool[id].mod != TB { ids := ids + [id]; }
    }
  }

  method PlacementsOf(pool: Pool, board: PlayingBoard, id: Id, cells: seq<Cell>)
    returns (placements: seq<Placement>, legal: seq<Cell>)
    requires id in pool && Selectable(pool[id]) && forall c :: c in cells <==> Empty(board.pieces, c)
    ensures forall p :: p in placements <==> p.slotId == id && Offered(pool, board.pieces, p)
    ensures forall c :: c in legal <==> CellOffered(pool, board.pieces, id, c)
  {
    placements, legal := [], [];
    for i := 0 to |cells|
      invariant forall c :: c in legal <==> c in cells[..i] && CellOffered(pool, board.pieces, id, c)
      invariant forall p :: p in placements <==> p.slotId == id && p.cell in cells[..i] && Offered(pool, board.pieces, p)
    {
      assert cells[i] in cells && cells[..i + 1] == cells[..i] + [cells[i]];
      var c, slot := cells[i], pool[id];
      ForceByCell(slot.mod, c);
      if slot.mod == Shiro {
        legal := legal + [c];
        placements := placements + [Placement(id, c, None)];
      } else {
        var force := PlacementForceMod(slot.mod, ZoneAt(c));
        if force.Some? {
          legal := legal + [c];
          placements := placements + [Placement(id, c, force.value)];
        }
      }
    }
    assert cells[..|cells|] == cells;
  }

  method Analyze(pool: Pool, board: PlayingBoard) returns (a: Analysis)
    ensures forall id :: id in a.selectable <==> id in pool && pool[id].state == Available && pool[id].mod != TB
    ensures forall c :: c in a.emptyCells <==> OnBoard(c) && c !in board.pieces
    ensures forall id :: id in a.legalCells <==> id in a.selectable
    ensures forall id, c :: id in a.legalCells ==>
              (c in a.legalCells[id] <==> CellOffered(pool, board.pieces, id, c))
    ensures forall p :: p in a.placements <==> Offered(pool, board.pieces, p)
    ensures a.redWon == WonCount(board.pieces, Red) == |WonAmong(board.pieces, board.pieces.Keys, Red)|
    ensures a.blueWon == WonCount(board.pieces, Blue) == |WonAmong(board.pieces, board.pieces.Keys, Blue)|
    ensures a.stalemate <==> forall p :: !Offered(pool, board.pieces, p)
    ensures a.stalemate <==> Stalemated(pool, board.pieces)
  {
    hide Stalemated, WonCount, Offered;
    var cells := EmptyCells(board);
    var red, blue := WonCounts(board);
    AllWon(board.pieces, Red);
    AllWon(board.pieces, Blue);
    var ids := SelectableSlots(pool);
    var placements: seq<Placement> := [];
    var legalCells: map<Id, seq<Cell>> := map[];
    for i := 0 to |ids|
      invariant forall id :: id in legalCells <==> id in ids[..i]
      invariant forall id, c :: id in legalCells ==> (c in legalCells[id] <==> CellOffered(pool, board.pieces, id, c))
      invariant forall p :: p in placements <==> p.slotId in ids[..i] && Offered(pool, board.pieces, p)
    {
      assert ids[i] in ids && ids[..i + 1] == ids[..i] + [ids[i]];
      var more, legal := PlacementsOf(pool, board, ids[i], cells);
      legalCells := legalCells[ids[i] := legal];
      ghost var before := placements;
      placements := placements + more;
      forall p ensures p in placements <==> p in before || p in more {}
    }
    assert ids[..|ids|] == ids;
    forall p | Offered(pool, board.pieces, p) ensures p in placements { OfferedIsSelectable(pool, board.pieces, p); }
    NothingOffered(pool, board.pieces, placements);
    assert placements != [] ==> placements[0].slotId in ids;
    a := Analysis(ids, cells, legalCells, placements, red, blue, ids == [] || placements == []);
  }

  lemma OfferedIsSelectable(pool: Pool, b: Board, p: Placement)
    requires Offered(pool, b, p)
    ensures p.slotId in pool && Selectable(pool[p.slotId])
  {}

  lemma NothingOffered(pool: Pool, b: Board, placements: seq<Placement>)
    requires forall p :: p in placements <==> Offered(pool, b, p)
    ensures placements == [] <==> forall p :: !Offered(pool, b, p)
    ensures placements == [] <==> Stalemated(pool, b)
  {
    hide LegalPlacement, Offered;
    if !Stalemated(pool, b) {
      var id, c :| LegalPlacement(pool, b, id, c);
      OfferedIsLegal(pool, b, id, c);
      assert Placement(id, c, ForceOf(pool[id].mod, c)) in placements;
    }
    if placements != [] {
      var p := placements[0];
      assert p in placements;
      OneForce(pool, b, p);
      OfferedIsLegal(pool, b, p.slotId, p.cell);
    }
  }

  lemma OneForce(pool: Pool, b: Board, p: Placement)
    requires Offered(pool, b, p)
    ensures p.slotId in pool && p == Placement(p.slotId, p.cell, ForceOf(pool[p.slotId].mod, p.cell))
  {}
}
