/** The board as the engine holds it: a map of pieces updated in place, and the line searches
    over it (internal/matchengine/board.go 95-252). */
module PlayingBoards {
  import opened MatchModel
  import opened BoardRules
  import opened Rules

  // ----- the 64 probes

  lemma ProbeAt(row: nat, col: nat, d: nat)
    requires row < 4 && col < 4 && d < 4
    ensures StartAt(16 * row + 4 * col + d) == Cell(col, row) && DirAt(16 * row + 4 * col + d) == DIRECTIONS[d]
  {}

  lemma LinesAreFound(b: Board, team: Team, n: nat)
    ensures Alignments(b, team, n, 64) != [] <==> HasLine(b, team, n)
  {
    hide Alignments, Line;
    if HasLine(b, team, n) {
      var c, d :| Line(b, team, n, c, d);
      FindAlignmentsIsExact(b, team, n, c, d);
    }
    if Alignments(b, team, n, 64) != [] {
      AlignmentsAreLines(b, team, n, 64);
      var a := Alignments(b, team, n, 64)[0];
      assert Names(b, team, n, a);
    }
  }

  predicate AllIn(xs: seq<Id>, ids: seq<Id>) { forall i | 0 <= i < |xs| :: xs[i] in ids }

  /** The listed alignment whose pieces are all wanted, if the wanted pieces form one. */
  lemma AlignmentIsFound(b: Board, team: Team, ids: seq<Id>, n: nat)
    requires |ids| == n && Distinct(ids) && "" !in ids
    ensures IsAlignment(b, team, ids, n)
        <==> exists a :: a in Alignments(b, team, n, 64) && AllIn(a.ids, ids)
  {
    hide Alignments;
    AlignmentsAreLines(b, team, n, 64);
    if IsAlignment(b, team, ids, n) {
      var c, d :| Line(b, team, n, c, d) && forall i | 0 <= i < n :: b[Shift(c, d, i)].id in ids;
      FindAlignmentsIsExact(b, team, n, c, d);
    }
    if a :| a in Alignments(b, team, n, 64) && AllIn(a.ids, ids) {
      forall i | 0 <= i < n ensures b[Shift(a.start, a.dir, i)].id in ids { assert a.ids[i] in ids; }
    }
  }

  lemma ParticipationIsFound(b: Board, team: Team, id: Id, n: nat)
    requires id != ""
    ensures Participates(b, team, id, n) <==> exists a :: a in Alignments(b, team, n, 64) && id in a.ids
  {
    hide Alignments;
    AlignmentsAreLines(b, team, n, 64);
    if Participates(b, team, id, n) {
      var c, d, i :| Line(b, team, n, c, d) && 0 <= i < n && b[Shift(c, d, i)].id == id;
      FindAlignmentsIsExact(b, team, n, c, d);
      var a :| a in Alignments(b, team, n, 64) && a.start == c && a.dir == d;
      assert a.ids[i] == id;
    }
    if a :| a in Alignments(b, team, n, 64) && id in a.ids {
      var i :| 0 <= i < |a.ids| && a.ids[i] == id;
      assert b[Shift(a.start, a.dir, i)].id == id;
    }
  }

  lemma RepeatsAreFewer(ids: seq<Id>)
    ensures |Ids(ids)| <= |ids| && (|Ids(ids)| == |ids| <==> Distinct(ids))
  {
    if ids != [] {
      var front, last := ids[..|ids| - 1], ids[|ids| - 1];
      RepeatsAreFewer(front);
      assert Ids(ids) == Ids(front) + {last};
      if last in Ids(front) {
        assert Ids(ids) == Ids(front);
        var i :| 0 <= i < |front| && front[i] == last;
        assert ids[i] == ids[|ids| - 1];
      } else {
        assert forall i | 0 <= i < |front| :: ids[i] != last;
        assert Distinct(front) ==> Distinct(ids);
      }
    }
  }

  class PlayingBoard {
    var pieces: Board

    constructor (pieces: Board)
      ensures this.pieces == pieces
    {
      this.pieces := pieces;
    }

    method Clone() returns (copy: PlayingBoard)
      ensures fresh(copy) && copy.pieces == pieces
    {
      copy := new PlayingBoard(pieces);
    }

    predicate IsEmpty(c: Cell)
      reads this
      ensures IsEmpty(c) <==> Empty(pieces, c)
    {
      OnBoard(c) && c !in pieces
    }

    method PieceById(id: Id) returns (found: Option<Cell>)
      ensures found.None? <==> !HasPiece(pieces, id)
      ensures found.Some? ==> found.value in pieces && pieces[found.value].id == id
    {
      var todo := pieces.Keys;
      while todo != {}
        invariant todo <= pieces.Keys
        invariant forall c | c in pieces && c !in todo :: pieces[c].id != id
      {
        var c :| c in todo;
        if pieces[c].id == id { return Some(c); }
        todo := todo - {c};
      }
      return None;
    }

    method ContainsPieceId(id: Id) returns (found: bool)
      ensures found <==> HasPiece(pieces, id)
    {
      var c := PieceById(id);
      found := c.Some?;
    }

    method Place(c: Cell, piece: Piece)
      modifies this
      ensures pieces == old(pieces)[c := piece]
    {
      pieces := pieces[c := piece];
    }

    /** Gives the piece to the team. Only one piece changes, so ids have to be unique for
        the result to be determined. */
    method SetOwner(id: Id, team: Team) returns (found: bool)
      requires UniqueIds(pieces)
      modifies this
      ensures found <==> HasPiece(old(pieces), id)
      ensures pieces == BoardRules.SetOwner(old(pieces), id, team)
    {
      var c := PieceById(id);
      found := c.Some?;
      if found {
        ghost var was := pieces;
        var piece := pieces[c.value];
        pieces := pieces[c.value := piece.(owner := Some(team), outcome := Won)];
        forall k | k in was && k != c.value ensures was[k].id != id {
          if was[k].id == id { SameIdSameCell(was, k, c.value); }
        }
        assert pieces == BoardRules.SetOwner(was, id, team);
      } else {
        assert pieces == BoardRules.SetOwner(pieces, id, team);
      }
    }

    method MarkDead(ids: seq<Id>)
      modifies this
      ensures pieces == BoardRules.MarkDead(old(pieces), Ids(ids))
    {
      ghost var was := pieces;
      var dead := {};
      for i := 0 to |ids|
        invariant dead == Ids(ids[..i])
      {
        assert Ids(ids[..i + 1]) == Ids(ids[..i]) + {ids[i]};
        dead := dead + {ids[i]};
      }
      assert ids[..|ids|] == ids;
      var todo := pieces.Keys;
      while todo != {}
        invariant todo <= pieces.Keys == was.Keys
        invariant forall c | c in todo :: pieces[c] == was[c]
        invariant forall c | c in was && c !in todo :: pieces[c] == if was[c].id in dead then was[c].(outcome := Dead) else was[c]
      {
        var c :| c in todo;
        todo := todo - {c};
        if pieces[c].id in dead {
          pieces := pieces[c := pieces[c].(outcome := Dead)];
        }
      }
    }

    /** Walks one line and collects its ids, or stops at the first cell that breaks it. */
    method Probe(team: Team, n: nat, start: Cell, dir: Dir) returns (ids: Option<seq<Id>>)
      ensures ids.Some? <==> Line(pieces, team, n, start, dir)
      ensures ids.Some? ==> ids.value == LineIds(pieces, n, start, dir)
    {
      var found: seq<Id> := [];
      for offset := 0 to n
        invariant forall i | 0 <= i < offset :: Held(pieces, team, Shift(start, dir, i))
        invariant |found| == offset && forall i | 0 <= i < offset :: found[i] == pieces[Shift(start, dir, i)].id
      {
        var c := Shift(start, dir, offset);
        if !OnBoard(c) || c !in pieces || pieces[c].outcome != Won || pieces[c].owner != Some(team) {
          assert !Held(pieces, team, Shift(start, dir, offset));
          return None;
        }
        found := found + [pieces[c].id];
      }
      return Some(found);
    }

    /** Every line of the length, row by row, column by column, in the four directions. */
    method FindAlignments(team: Team, n: nat) returns (found: seq<Alignment>)
      ensures found == Alignments(pieces, team, n, 64)
    {
      hide Line, LineIds, StartAt, DirAt;
      found := [];
      if !team.Valid() || !LineLength(n) { return; }
      for row := 0 to 4
        invariant found == Alignments(pieces, team, n, 16 * row)
      {
        for col := 0 to 4
          invariant found == Alignments(pieces, team, n, 16 * row + 4 * col)
        {
          for d := 0 to 4
            invariant found == Alignments(pieces, team, n, 16 * row + 4 * col + d)
          {
            ProbeAt(row, col, d);
            var ids := Probe(team, n, Cell(col, row), DIRECTIONS[d]);
            if ids.Some? {
              found := found + [Alignment(Cell(col, row), DIRECTIONS[d], ids.value)];
            }
          }
        }
      }
    }

    method FourAligned(team: Team) returns (four: bool)
      ensures four <==> HasFour(pieces, team)
    {
      hide Alignments;
      LinesAreFound(pieces, team, 4);
      var found := FindAlignments(team, 4);
      four := found != [];
    }

    method IsAligned(team: Team, ids: seq<Id>, n: nat) returns (aligned: bool)
      ensures aligned <==> IsAlignment(pieces, team, ids, n)
    {
      hide Alignments, Line;
      if |ids| != n { return false; }
      var wanted: set<Id> := {};
      for i := 0 to n
        invariant wanted == Ids(ids[..i]) && "" !in ids[..i]
      {
        if ids[i] == "" { return false; }
        assert Ids(ids[..i + 1]) == Ids(ids[..i]) + {ids[i]};
        wanted := wanted + {ids[i]};
      }
      assert ids[..n] == ids;
      RepeatsAreFewer(ids);
      if |wanted| != n { return false; }
      AlignmentIsFound(pieces, team, ids, n);
      var found := FindAlignments(team, n);
      for k := 0 to |found|
        invariant forall j | 0 <= j < k :: !AllIn(found[j].ids, ids)
      {
        var matched := true;
        for i := 0 to |found[k].ids|
          invariant matched <==> AllIn(found[k].ids[..i], ids)
        {
          assert forall id :: id in wanted <==> id in ids;
          assert found[k].ids[..i + 1] == found[k].ids[..i] + [found[k].ids[i]];
          if found[k].ids[i] !in wanted { matched := false; }
        }
        assert found[k].ids[..|found[k].ids|] == found[k].ids;
        if matched { return true; }
      }
      return false;
    }

    method ParticipatesIn(team: Team, id: Id, n: nat) returns (participates: bool)
      ensures participates <==> Participates(pieces, team, id, n)
    {
      hide Alignments, Line;
      if id == "" { return false; }
      ParticipationIsFound(pieces, team, id, n);
      var found := FindAlignments(team, n);
      for k := 0 to |found|
        invariant forall j | 0 <= j < k :: id !in found[j].ids
      {
        if id in found[k].ids { return true; }
      }
      return false;
    }
  }
}
