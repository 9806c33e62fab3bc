/** The 4x4 board of internal/matchengine/board.go: cells, zones, lines of WON pieces,
    and the three updates a piece can receive. */
module BoardRules {
  import opened MatchModel

  // ----- cells and zones (board.go 78-93, 254-268)

  predicate OnBoard(c: Cell) { 0 <= c.col < 4 && 0 <= c.row < 4 }

  datatype Zone = ZoneDT | ZoneHD | ZoneHR

  function ZoneAt(c: Cell): Zone {
    if (c.row < 2) == (c.col < 2) then ZoneDT else if c.row < 2 then ZoneHD else ZoneHR
  }

  /** cellPosition: a two-character text, column letter first. */
  function CellPosition(text: string): Option<Cell> {
    if |text| != 2 then None
    else
      var c := Cell(text[0] as int - 'A' as int, text[1] as int - '1' as int);
      if OnBoard(c) then Some(c) else None
  }

  function PositionCell(c: Cell): string
    requires OnBoard(c)
  {
    [('A' as int + c.col) as char, ('1' as int + c.row) as char]
  }

  /** The 16 canonical texts and the 16 cells are in bijection. */
  lemma CellTextsRoundTrip(text: string, c: Cell)
    ensures OnBoard(c) ==> CellPosition(PositionCell(c)) == Some(c) && PositionCell(c) == ["ABCD"[c.col], "1234"[c.row]]
    ensures CellPosition(text).Some? ==> OnBoard(CellPosition(text).value) && PositionCell(CellPosition(text).value) == text
  {}

  ghost predicate Empty(b: Board, c: Cell) { OnBoard(c) && c !in b }

  /** Where a beatmap may be placed, by coordinates: HD in the upper right quarter, HR in the
      lower left, DT in the other two, NM and FM anywhere. */
  predicate MayLie(mod: Mod, c: Cell) {
    match mod
    case NM => true
    case FM => true
    case HD => c.row < 2 && c.col >= 2
    case HR => c.row >= 2 && c.col < 2
    case DT => (c.row < 2 && c.col < 2) || (c.row >= 2 && c.col >= 2)
    case _ => false
  }

  /** The Force Mod of a piece on a cell: only FM pieces have one, the mod of the quarter. */
  function ForceOf(mod: Mod, c: Cell): Option<ForceMod> {
    if mod != FM then None
    else if MayLie(HD, c) then Some(ForceHD)
    else if MayLie(HR, c) then Some(ForceHR)
    else Some(ForceNM)
  }

  // ----- piece identities

  ghost predicate HasPiece(b: Board, id: Id) { exists c :: c in b && b[c].id == id }

  ghost function CellWith(b: Board, id: Id): Cell
    requires HasPiece(b, id)
  {
    var c :| c in b && b[c].id == id; c
  }

  /** No two pieces share an id: looking a piece's id up leads back to its cell. */
  ghost predicate UniqueIds(b: Board) { forall c | c in b :: CellWith(b, b[c].id) == c }

  lemma SameIdSameCell(b: Board, c1: Cell, c2: Cell)
    requires UniqueIds(b) && c1 in b && c2 in b && b[c1].id == b[c2].id
    ensures c1 == c2
  {}

  // ----- lines (board.go 175-252)

  datatype Dir = East | South | SouthEast | NorthEast

  function Shift(c: Cell, d: Dir, i: int): Cell {
    match d
    case East => Cell(c.col + i, c.row)
    case South => Cell(c.col, c.row + i)
    case SouthEast => Cell(c.col + i, c.row + i)
    case NorthEast => Cell(c.col + i, c.row - i)
  }

  /** A WON piece of the team lies on the cell: nothing else takes part in a line. */
  predicate Held(b: Board, team: Team, c: Cell) {
    OnBoard(c) && c in b && b[c].outcome == Won && b[c].owner == Some(team)
  }

  predicate Line(b: Board, team: Team, n: nat, c: Cell, d: Dir) {
    forall i | 0 <= i < n :: Held(b, team, Shift(c, d, i))
  }

  predicate LineLength(n: int) { 2 <= n <= 4 }

  ghost predicate HasLine(b: Board, team: Team, n: nat) {
    team.Valid() && LineLength(n) && exists c, d :: Line(b, team, n, c, d)
  }

  ghost predicate HasFour(b: Board, team: Team) { HasLine(b, team, 4) }

  function LineIds(b: Board, n: nat, c: Cell, d: Dir): (ids: seq<Id>)
    requires forall i | 0 <= i < n :: Shift(c, d, i) in b
    ensures |ids| == n
    ensures forall i | 0 <= i < n :: ids[i] == b[Shift(c, d, i)].id
  {
    seq(n, i requires 0 <= i < n => b[Shift(c, d, i)].id)
  }

  /** isAlignment: the ids name, in any order, exactly the pieces of one line. */
  ghost predicate IsAlignment(b: Board, team: Team, ids: seq<Id>, n: nat) {
    && |ids| == n && Distinct(ids) && "" !in ids
    && team.Valid() && LineLength(n)
    && exists c, d :: Line(b, team, n, c, d) && forall i | 0 <= i < n :: b[Shift(c, d, i)].id in ids
  }

  ghost predicate Participates(b: Board, team: Team, id: Id, n: nat) {
    && id != "" && team.Valid() && LineLength(n)
    && exists c, d, i :: Line(b, team, n, c, d) && 0 <= i < n && b[Shift(c, d, i)].id == id
  }

  predicate Distinct(ids: seq<Id>) { forall i, j | 0 <= i < j < |ids| :: ids[i] != ids[j] }

  function WonCount(b: Board, team: Team): nat {
    |set c | c in b && b[c].outcome == Won && b[c].owner == Some(team)|
  }

  // ----- updates (board.go 122-160)

  function SetOwner(b: Board, id: Id, team: Team): Board {
    map c | c in b :: if b[c].id == id then b[c].(owner := Some(team), outcome := Won) else b[c]
  }

  function MarkDead(b: Board, ids: set<Id>): Board {
    map c | c in b :: if b[c].id in ids then b[c].(outcome := Dead) else b[c]
  }

  // ----- the list FindAlignments builds

  datatype Alignment = Alignment(start: Cell, dir: Dir, ids: seq<Id>)

  const DIRECTIONS: seq<Dir> := [East, South, SouthEast, NorthEast]

  function StartAt(k: nat): Cell { Cell(k / 4 % 4, k / 16) }

  function DirAt(k: nat): Dir { DIRECTIONS[k % 4] }

  /** The alignments found by the first k of the 64 (row, column, direction) probes. */
  function Alignments(b: Board, team: Team, n: nat, k: nat): seq<Alignment> {
    if k == 0 || !team.Valid() || !LineLength(n) then []
    else
      var c, d := StartAt(k - 1), DirAt(k - 1);
      Alignments(b, team, n, k - 1) +
      if Line(b, team, n, c, d) then [Alignment(c, d, LineIds(b, n, c, d))] else []
  }

  predicate Names(b: Board, team: Team, n: nat, a: Alignment) {
    Line(b, team, n, a.start, a.dir) && a.ids == LineIds(b, n, a.start, a.dir)
  }

  lemma {:induction false} AlignmentsAreLines(b: Board, team: Team, n: nat, k: nat)
    ensures forall a :: a in Alignments(b, team, n, k) ==> Names(b, team, n, a) && team.Valid() && LineLength(n)
  {
    if k > 0 && team.Valid() && LineLength(n) { AlignmentsAreLines(b, team, n, k - 1); }
  }

  lemma {:induction false} LinesAreListed(b: Board, team: Team, n: nat, k: nat, m: nat)
    requires m < k <= 64 && team.Valid() && LineLength(n)
    requires Line(b, team, n, StartAt(m), DirAt(m))
    ensures exists a :: a in Alignments(b, team, n, k) && a.start == StartAt(m) && a.dir == DirAt(m)
  {
    var rest := Alignments(b, team, n, k - 1);
    if m < k - 1 {
      LinesAreListed(b, team, n, k - 1, m);
      var a :| a in rest && a.start == StartAt(m) && a.dir == DirAt(m);
      assert a in Alignments(b, team, n, k);
    } else {
      var a := Alignment(StartAt(m), DirAt(m), LineIds(b, n, StartAt(m), DirAt(m)));
      assert Alignments(b, team, n, k) == rest + [a];
      assert Alignments(b, team, n, k)[|rest|] == a;
    }
  }

  lemma ProbeOf(c: Cell, d: Dir) returns (m: nat)
    requires OnBoard(c)
    ensures m < 64 && StartAt(m) == c && DirAt(m) == d
  {
    m := 16 * c.row + 4 * c.col + (match d case East => 0 case South => 1 case SouthEast => 2 case NorthEast => 3);
  }

  /** FindAlignments lists exactly the lines of the requested length: the 64 probes
      miss none, because a line of WON pieces starts on the board. */
  lemma FindAlignmentsIsExact(b: Board, team: Team, n: nat, c: Cell, d: Dir)
    ensures (exists a :: a in Alignments(b, team, n, 64) && a.start == c && a.dir == d)
        <==> (team.Valid() && LineLength(n) && Line(b, team, n, c, d))
  {
    AlignmentsAreLines(b, team, n, 64);
    if team.Valid() && LineLength(n) && Line(b, team, n, c, d) {
      assert Held(b, team, Shift(c, d, 0));
      var m := ProbeOf(c, d);
      LinesAreListed(b, team, n, 64, m);
    }
  }
}
