/** The robbery computations of the engine: the sacrifice sets of a command, the board after a
    robbery, the search of the forced-TB decider (internal/matchengine/engine.go 362-434) and
    the plans of the availability oracle (internal/matchengine/availability.go 309-358). */
module RobberySearch {
  import opened MatchModel
  import opened BoardRules
  import opened PlayingBoards
  import opened Rules
  import Robbery

  /** Joins the sets, or reports that a piece appears twice. */
  method FlattenSacrificeSets(sets: seq<seq<Id>>) returns (ids: seq<Id>, overlap: bool)
    ensures overlap <==> !Distinct(Flatten(sets))
    ensures !overlap ==> ids == Flatten(sets)
  {
    var seen: set<Id> := {};
    ids, overlap := [], false;
    for i := 0 to |sets|
      invariant ids == Flatten(sets[..i]) && seen == Ids(ids) && Distinct(ids)
    {
      assert sets[..i + 1][..i] == sets[..i];
      assert Flatten(sets[..i + 1]) == Flatten(sets[..i]) + sets[i];
      for j := 0 to |sets[i]|
        invariant ids == Flatten(sets[..i]) + sets[i][..j] && seen == Ids(ids) && Distinct(ids)
      {
        ghost var before := ids;
        assert before + [sets[i][j]] == Flatten(sets[..i]) + sets[i][..j + 1];
        OneMoreId(before, sets[i][j]);
        if sets[i][j] in seen {
          StillRepeats(sets, i, j);
          return [], true;
        }
        seen := seen + {sets[i][j]};
        ids := ids + [sets[i][j]];
      }
      assert sets[i][..|sets[i]|] == sets[i];
    }
    assert sets[..|sets|] == sets;
  }

  lemma OneMoreId(ids: seq<Id>, id: Id)
    ensures Ids(ids + [id]) == Ids(ids) + {id}
    ensures Distinct(ids + [id]) <==> Distinct(ids) && id !in Ids(ids)
  {
    var more := ids + [id];
    assert more[|ids|] == id && forall i | 0 <= i < |ids| :: more[i] == ids[i];
  }

  lemma {:induction false} FlattenPrefix(sets: seq<seq<Id>>, i: nat)
    requires i <= |sets|
    ensures Flatten(sets[..i]) <= Flatten(sets)
  {
    if i < |sets| {
      FlattenPrefix(sets[..|sets| - 1], i);
      assert sets[..|sets| - 1][..i] == sets[..i];
    } else {
      assert sets[..i] == sets;
    }
  }

  lemma StillRepeats(sets: seq<seq<Id>>, i: nat, j: nat)
    requires i < |sets| && j < |sets[i]| && !Distinct(Flatten(sets[..i]) + sets[i][..j + 1])
    ensures !Distinct(Flatten(sets))
  {
    FlattenPrefix(sets, i + 1);
    assert sets[..i + 1][..i] == sets[..i];
    var part, whole := Flatten(sets[..i]) + sets[i][..j + 1], Flatten(sets);
    assert part <= Flatten(sets[..i + 1]) <= whole;
    assert forall k | 0 <= k < |part| :: part[k] == whole[k];
  }

  /** Works on a copy; the board itself stays. */
  method BoardAfter(board: PlayingBoard, team: Team, target: Id, sacrifice: seq<Id>, n: nat)
    returns (next: PlayingBoard, valid: bool)
    requires UniqueIds(board.pieces)
    ensures fresh(next)
    ensures valid <==> RobberyHolds(board.pieces, team, target, Ids(sacrifice), n)
    ensures valid ==> next.pieces == BoardAfterRobbery(board.pieces, team, target, Ids(sacrifice))
  {
    hide Participates;
    next := board.Clone();
    next.MarkDead(sacrifice);
    DeadKeepIds(board.pieces, Ids(sacrifice), target);
    valid := next.SetOwner(target, team);
    if valid {
      valid := next.ParticipatesIn(team, target, n);
    }
  }

  lemma DeadKeepIds(b: Board, ids: set<Id>, target: Id)
    ensures UniqueIds(b) ==> UniqueIds(MarkDead(b, ids))
    ensures HasPiece(MarkDead(b, ids), target) <==> HasPiece(b, target)
  {
    var b' := MarkDead(b, ids);
    if UniqueIds(b) {
      forall c | c in b' ensures CellWith(b', b'[c].id) == c {
        SameIdSameCell(b, CellWith(b', b'[c].id), c);
      }
    }
    if HasPiece(b, target) {
      var c :| c in b && b[c].id == target;
      assert b'[c].id == target;
    }
  }

  method IsNormalSacrifice(board: PlayingBoard, team: Team, sets: seq<seq<Id>>) returns (valid: bool)
    ensures valid <==> NormalSacrifice(board.pieces, team, sets)
  {
    hide IsAlignment;
    if |sets| == 1 {
      valid := board.IsAligned(team, sets[0], 3);
    } else if |sets| == 2 {
      valid := board.IsAligned(team, sets[0], 2);
      if valid { valid := board.IsAligned(team, sets[1], 2); }
    } else {
      valid := false;
    }
  }

  // ----- the forced-TB decider

  method SingleSacrificeExists(board: PlayingBoard, team: Team, target: Id, found: seq<Alignment>, n: nat)
    returns (exist: bool)
    requires UniqueIds(board.pieces)
    ensures exist <==> exists x :: x in found && RobberyHolds(board.pieces, team, target, Ids(x.ids), n)
  {
    hide RobberyHolds, UniqueIds;
    for i := 0 to |found|
      invariant forall j | 0 <= j < i :: !RobberyHolds(board.pieces, team, target, Ids(found[j].ids), n)
    {
      var _, valid := BoardAfter(board, team, target, found[i].ids, n);
      if valid { return true; }
    }
    return false;
  }

  method PairSacrificeExists(board: PlayingBoard, team: Team, target: Id, twos: seq<Alignment>) returns (exist: bool)
    requires UniqueIds(board.pieces)
    ensures exist <==>
      exists i, j :: 0 <= i < j < |twos| && PairSacrifice(board.pieces, team, target, twos[i].ids, twos[j].ids)
  {
    hide RobberyHolds, UniqueIds, Distinct, Flatten;
    for i := 0 to |twos|
      invariant forall k, m | 0 <= k < i && k < m < |twos| :: !PairSacrifice(board.pieces, team, target, twos[k].ids, twos[m].ids)
    {
      for j := i + 1 to |twos|
        invariant forall m | i < m < j :: !PairSacrifice(board.pieces, team, target, twos[i].ids, twos[m].ids)
      {
        Robbery.FlattenFew(twos[i].ids, twos[j].ids);
        var ids, overlap := FlattenSacrificeSets([twos[i].ids, twos[j].ids]);
        if !overlap {
          var _, valid := BoardAfter(board, team, target, ids, 3);
          if valid { return true; }
        }
      }
    }
    return false;
  }

  method SacrificeFor(board: PlayingBoard, team: Team, target: Piece, twos: seq<Alignment>, threes: seq<Alignment>)
    returns (exist: bool)
    requires UniqueIds(board.pieces)
    requires twos == Alignments(board.pieces, team, 2, 64) && threes == Alignments(board.pieces, team, 3, 64)
    ensures exist <==> SacrificeExists(board.pieces, team, target)
  {
    hide RobberyHolds, PairSacrifice, Alignments, UniqueIds;
    if ShiroTarget(target) {
      exist := SingleSacrificeExists(board, team, target.id, twos, 2);
    } else if OpponentTarget(target, team) {
      exist := SingleSacrificeExists(board, team, target.id, threes, 3);
      if !exist { exist := PairSacrificeExists(board, team, target.id, twos); }
    } else {
      exist := false;
    }
  }

  /** teamHasLegalRobbery: the exhaustive search over targets and sacrifices. */
  method CanRob(board: PlayingBoard, team: Team) returns (legal: bool)
    requires UniqueIds(board.pieces)
    ensures legal <==> TeamHasLegalRobbery(board.pieces, team)
  {
    hide SacrificeExists, Alignments, UniqueIds;
    var twos := board.FindAlignments(team, 2);
    var threes := board.FindAlignments(team, 3);
    var todo := board.pieces.Keys;
    while todo != {}
      invariant todo <= board.pieces.Keys
      invariant forall c | c in board.pieces && c !in todo :: !SacrificeExists(board.pieces, team, board.pieces[c])
    {
      var c :| c in todo;
      todo := todo - {c};
      var exist := SacrificeFor(board, team, board.pieces[c], twos, threes);
      if exist { return true; }
    }
    return false;
  }

  // ----- the availability oracle

  datatype Plan = Plan(target: Id, sets: seq<seq<Id>>)

  method SinglePlans(board: PlayingBoard, team: Team, target: Id, found: seq<Alignment>, n: nat)
    returns (plans: seq<Plan>)
    requires UniqueIds(board.pieces)
    ensures forall p :: p in plans <==>
      exists x :: x in found && p == Plan(target, [x.ids]) && RobberyHolds(board.pieces, team, target, Ids(x.ids), n)
  {
    hide RobberyHolds, UniqueIds;
    plans := [];
    for i := 0 to |found|
      invariant forall p :: p in plans <==>
        exists j :: 0 <= j < i && p == Plan(target, [found[j].ids]) && RobberyHolds(board.pieces, team, target, Ids(found[j].ids), n)
    {
      var _, valid := BoardAfter(board, team, target, found[i].ids, n);
      if valid { plans := plans + [Plan(target, [found[i].ids])]; }
    }
  }

  method PairPlans(board: PlayingBoard, team: Team, target: Id, twos: seq<Alignment>) returns (plans: seq<Plan>)
    requires UniqueIds(board.pieces)
    ensures forall p :: p in plans <==>
      exists i, j :: 0 <= i < j < |twos| && p == Plan(target, [twos[i].ids, twos[j].ids])
        && PairSacrifice(board.pieces, team, target, twos[i].ids, twos[j].ids)
  {
    plans := [];
    for i := 0 to |twos|
      invariant forall p :: p in plans <==>
        exists k, m :: 0 <= k < i && k < m < |twos| && p == Plan(target, [twos[k].ids, twos[m].ids])
          && PairSacrifice(board.pieces, team, target, twos[k].ids, twos[m].ids)
    {
      var more := PairPlansFrom(board, team, target, twos, i);
      ghost var before := plans;
      plans := plans + more;
      forall p ensures p in plans <==> p in before || p in more {}
    }
  }

  // The pairs whose first alignment is the i-th.
  method PairPlansFrom(board: PlayingBoard, team: Team, target: Id, twos: seq<Alignment>, i: nat)
    returns (plans: seq<Plan>)
    requires UniqueIds(board.pieces) && i < |twos|
    ensures forall p :: p in plans <==>
      exists j :: i < j < |twos| && p == Plan(target, [twos[i].ids, twos[j].ids])
        && PairSacrifice(board.pieces, team, target, twos[i].ids, twos[j].ids)
  {
    hide RobberyHolds, UniqueIds, Distinct, Flatten;
    plans := [];
    for j := i + 1 to |twos|
      invariant forall p :: p in plans <==>
        exists m :: i < m < j && p == Plan(target, [twos[i].ids, twos[m].ids])
          && PairSacrifice(board.pieces, team, target, twos[i].ids, twos[m].ids)
    {
      Robbery.FlattenFew(twos[i].ids, twos[j].ids);
      var ids, overlap := FlattenSacrificeSets([twos[i].ids, twos[j].ids]);
      if !overlap {
        var _, valid := BoardAfter(board, team, target, ids, 3);
        if valid { plans := plans + [Plan(target, [twos[i].ids, twos[j].ids])]; }
      }
    }
  }

  method PlansFor(board: PlayingBoard, team: Team, target: Piece, twos: seq<Alignment>, threes: seq<Alignment>)
    returns (plans: seq<Plan>)
    requires UniqueIds(board.pieces)
    requires twos == Alignments(board.pieces, team, 2, 64) && threes == Alignments(board.pieces, team, 3, 64)
    ensures forall p :: p in plans <==> p.target == target.id && Robbery.PlanFor(board.pieces, team, target, p.sets)
  {
    hide RobberyHolds, PairSacrifice, Alignments, UniqueIds;
    plans := [];
    if ShiroTarget(target) {
      plans := SinglePlans(board, team, target.id, twos, 2);
    } else if OpponentTarget(target, team) {
      var single := SinglePlans(board, team, target.id, threes, 3);
      var pairs := PairPlans(board, team, target.id, twos);
      plans := single + pairs;
      forall p ensures p in plans <==> p in single || p in pairs {}
    }
  }

  /** robberyPlans, without its final sort: one plan per target and complete sacrifice. */
  method RobberyPlans(board: PlayingBoard, team: Team) returns (plans: seq<Plan>)
    requires UniqueIds(board.pieces)
    ensures forall p :: p in plans <==> Robbery.Planned(board.pieces, team, p.target, p.sets)
  {
    hide Robbery.PlanFor, Alignments, UniqueIds;
    var twos := board.FindAlignments(team, 2);
    var threes := board.FindAlignments(team, 3);
    plans := [];
    var todo := board.pieces.Keys;
    while todo != {}
      invariant todo <= board.pieces.Keys
      invariant forall p :: p in plans <==>
        exists c :: c in board.pieces && c !in todo && board.pieces[c].id == p.target
          && Robbery.PlanFor(board.pieces, team, board.pieces[c], p.sets)
    {
      var c :| c in todo;
      todo := todo - {c};
      var more := PlansFor(board, team, board.pieces[c], twos, threes);
      ghost var before := plans;
      plans := plans + more;
      forall p ensures p in plans <==> p in before || p in more {}
    }
  }
}
