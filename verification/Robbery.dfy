/** Robbery is decided in three places: RobPiece checks submitted sacrifice sets
    (engine.go 287-349), robberyPlans lists plans (availability.go 309-358) and
    teamHasLegalRobbery looks for one (engine.go 398-434). They agree. */
module Robbery {
  import opened MatchModel
  import opened BoardRules
  import opened Rules
  import opened Validation
  import A = Acceptance
  import G = GateExactness

  /** One plan robberyPlans emits for a target: each set is a listed alignment's ids. */
  ghost predicate PlanFor(b: Board, team: Team, target: Piece, sets: seq<seq<Id>>) {
    var twos, threes := Alignments(b, team, 2, 64), Alignments(b, team, 3, 64);
    if ShiroTarget(target) then
      exists x :: x in twos && sets == [x.ids] && RobberyHolds(b, team, target.id, Ids(x.ids), 2)
    else
      && OpponentTarget(target, team)
      && (|| (exists x :: x in threes && sets == [x.ids] && RobberyHolds(b, team, target.id, Ids(x.ids), 3))
          || (exists i, j :: 0 <= i < j < |twos| && sets == [twos[i].ids, twos[j].ids]
                && PairSacrifice(b, team, target.id, twos[i].ids, twos[j].ids)))
  }

  ghost predicate Planned(b: Board, team: Team, target: Id, sets: seq<seq<Id>>) {
    exists c :: c in b && b[c].id == target && PlanFor(b, team, b[c], sets)
  }

  predicate SameSet(x: seq<Id>, y: seq<Id>) { multiset(x) == multiset(y) }

  /** The same sacrifice sets, the sets and the ids inside them in any order. */
  predicate Reordered(a: seq<seq<Id>>, b: seq<seq<Id>>) {
    || (|a| == |b| == 1 && SameSet(a[0], b[0]))
    || (|a| == |b| == 2 && SameSet(a[0], b[0]) && SameSet(a[1], b[1]))
    || (|a| == |b| == 2 && SameSet(a[0], b[1]) && SameSet(a[1], b[0]))
  }

  ghost predicate Identified(b: Board) { UniqueIds(b) && forall c | c in b :: b[c].id != "" }

  // ----- lists of ids

  lemma FlattenFew(x: seq<Id>, y: seq<Id>)
    ensures Flatten([x]) == x && Flatten([x, y]) == x + y
  {}

  lemma IdsOfMultiset(x: seq<Id>, y: seq<Id>)
    requires SameSet(x, y)
    ensures Ids(x) == Ids(y) && |x| == |y| && (Distinct(x) ==> Distinct(y))
  {
    forall id ensures id in Ids(x) <==> id in Ids(y) {
      assert id in x <==> id in multiset(x);
      assert id in y <==> id in multiset(y);
    }
    assert |multiset(x)| == |x| && |multiset(y)| == |y|;
    if Distinct(x) {
      forall i, j | 0 <= i < j < |y| ensures y[i] != y[j] {
        if y[i] == y[j] {
          DistinctCounts(x, y[i]);
          RepeatedCounts(y, i, j);
        }
      }
    }
  }

  lemma DistinctCounts(x: seq<Id>, id: Id)
    requires Distinct(x)
    ensures multiset(x)[id] <= 1
  {
    if x != [] {
      var front := x[..|x| - 1];
      assert x == front + [x[|x| - 1]];
      DistinctCounts(front, id);
    }
  }

  lemma RepeatedCounts(x: seq<Id>, i: nat, j: nat)
    requires i < j < |x| && x[i] == x[j]
    ensures multiset(x)[x[i]] >= 2
  {
    assert x == x[..j] + [x[j]] + x[j + 1..];
    assert x[i] in x[..j];
  }

  lemma SameIdsSameSet(x: seq<Id>, y: seq<Id>)
    requires Distinct(x) && Distinct(y) && Ids(x) == Ids(y)
    ensures SameSet(x, y)
  {
    forall id ensures multiset(x)[id] == multiset(y)[id] {
      DistinctCounts(x, id);
      DistinctCounts(y, id);
      assert id in x <==> id in Ids(x);
      assert id in y <==> id in Ids(y);
      assert id in x <==> id in multiset(x);
      assert id in y <==> id in multiset(y);
    }
  }

  // ----- submitted sets against listed alignments

  /** A submitted set is an alignment exactly when it reorders a listed one. */
  lemma AlignmentIsListed(b: Board, team: Team, ids: seq<Id>, n: nat)
    requires Identified(b)
    ensures IsAlignment(b, team, ids, n) <==> exists x :: x in Alignments(b, team, n, 64) && SameSet(ids, x.ids)
  {
    var listed := Alignments(b, team, n, 64);
    AlignmentsAreLines(b, team, n, 64);
    if IsAlignment(b, team, ids, n) {
      var at, d :| Line(b, team, n, at, d) && forall i | 0 <= i < n :: b[Shift(at, d, i)].id in ids;
      FindAlignmentsIsExact(b, team, n, at, d);
      var x :| x in listed && x.start == at && x.dir == d;
      G.LineCovers(b, team, ids, n, at, d, ids[0]);
      G.LineDistinct(b, team, n, at, d);
      SameIdsSameSet(ids, x.ids);
    }
    if x :| x in listed && SameSet(ids, x.ids) {
      G.LineDistinct(b, team, n, x.start, x.dir);
      IdsOfMultiset(x.ids, ids);
      forall i | 0 <= i < n ensures b[Shift(x.start, x.dir, i)].id in ids && b[Shift(x.start, x.dir, i)].id != "" {
        assert x.ids[i] in multiset(x.ids);
        assert Held(b, team, Shift(x.start, x.dir, i));
      }
      assert "" !in x.ids;
      assert "" in ids ==> "" in multiset(ids);
    }
  }

  lemma UnionOfSets(x: seq<Id>, y: seq<Id>)
    ensures Ids(x + y) == Ids(x) + Ids(y)
  {
    assert forall id :: id in Ids(x + y) <==> id in x + y;
    assert forall id :: id in Ids(x) <==> id in x;
    assert forall id :: id in Ids(y) <==> id in y;
  }

  lemma ReorderingKeepsSacrifice(a: seq<seq<Id>>, b: seq<seq<Id>>)
    requires Reordered(a, b)
    ensures Ids(Flatten(a)) == Ids(Flatten(b)) && (Distinct(Flatten(b)) <==> Distinct(Flatten(a)))
    ensures |a| == |b| && (|a| == 1 || |a| == 2)
  {
    if |a| == 1 {
      assert a == [a[0]] && b == [b[0]];
      FlattenFew(a[0], []);
      FlattenFew(b[0], []);
    } else {
      assert a == [a[0], a[1]] && b == [b[0], b[1]];
      FlattenFew(a[0], a[1]);
      FlattenFew(b[0], b[1]);
    }
    assert multiset(Flatten(a)) == multiset(Flatten(b));
    IdsOfMultiset(Flatten(a), Flatten(b));
    IdsOfMultiset(Flatten(b), Flatten(a));
  }

  ghost predicate AcceptedFor(b: Board, team: Team, target: Piece, sets: seq<seq<Id>>) {
    Distinct(Flatten(sets)) && RobberyOf(b, team, target, sets)
  }

  // ----- a plan is accepted, in any order

  lemma SinglePlanAccepted(b: Board, team: Team, target: Piece, x: Alignment, n: nat, sets: seq<seq<Id>>)
    requires Identified(b) && x in Alignments(b, team, n, 64) && Reordered(sets, [x.ids])
    requires RobberyHolds(b, team, target.id, Ids(x.ids), n)
    ensures |sets| == 1 && Distinct(Flatten(sets)) && IsAlignment(b, team, sets[0], n)
    ensures RobberyHolds(b, team, target.id, Ids(Flatten(sets)), n)
  {
    ReorderingKeepsSacrifice(sets, [x.ids]);
    FlattenFew(x.ids, []);
    AlignmentsAreLines(b, team, n, 64);
    G.LineDistinct(b, team, n, x.start, x.dir);
    AlignmentIsListed(b, team, sets[0], n);
  }

  lemma PairPlanAccepted(b: Board, team: Team, target: Piece, x: Alignment, y: Alignment, sets: seq<seq<Id>>)
    requires Identified(b) && x in Alignments(b, team, 2, 64) && y in Alignments(b, team, 2, 64)
    requires PairSacrifice(b, team, target.id, x.ids, y.ids) && Reordered(sets, [x.ids, y.ids])
    ensures |sets| == 2 && Distinct(Flatten(sets))
    ensures IsAlignment(b, team, sets[0], 2) && IsAlignment(b, team, sets[1], 2)
    ensures RobberyHolds(b, team, target.id, Ids(Flatten(sets)), 3)
  {
    ReorderingKeepsSacrifice(sets, [x.ids, y.ids]);
    FlattenFew(x.ids, y.ids);
    AlignmentIsListed(b, team, sets[0], 2);
    AlignmentIsListed(b, team, sets[1], 2);
  }

  lemma PlanIsAccepted(b: Board, team: Team, target: Piece, plan: seq<seq<Id>>, sets: seq<seq<Id>>)
    requires Identified(b) && PlanFor(b, team, target, plan) && Reordered(sets, plan)
    ensures AcceptedFor(b, team, target, sets)
  {
    hide Alignments, RobberyHolds, Reordered, Flatten, IsAlignment;
    var twos, threes := Alignments(b, team, 2, 64), Alignments(b, team, 3, 64);
    if ShiroTarget(target) {
      var x :| x in twos && plan == [x.ids] && RobberyHolds(b, team, target.id, Ids(x.ids), 2);
      SinglePlanAccepted(b, team, target, x, 2, sets);
    } else if x :| x in threes && plan == [x.ids] && RobberyHolds(b, team, target.id, Ids(x.ids), 3) {
      SinglePlanAccepted(b, team, target, x, 3, sets);
    } else {
      var i, j :| 0 <= i < j < |twos| && plan == [twos[i].ids, twos[j].ids]
                  && PairSacrifice(b, team, target.id, twos[i].ids, twos[j].ids);
      PairPlanAccepted(b, team, target, twos[i], twos[j], sets);
    }
  }

  // ----- an accepted submission reorders a plan

  lemma SingleIsPlanned(b: Board, team: Team, target: Piece, ids: seq<Id>, n: nat) returns (x: Alignment)
    requires Identified(b) && IsAlignment(b, team, ids, n) && RobberyHolds(b, team, target.id, Ids(Flatten([ids])), n)
    ensures x in Alignments(b, team, n, 64) && Reordered([ids], [x.ids])
    ensures RobberyHolds(b, team, target.id, Ids(x.ids), n)
  {
    AlignmentIsListed(b, team, ids, n);
    x :| x in Alignments(b, team, n, 64) && SameSet(ids, x.ids);
    FlattenFew(ids, []);
    IdsOfMultiset(ids, x.ids);
  }

  // Two disjoint submitted sets cannot be one listed alignment.
  lemma DisjointSetsDiffer(x: seq<Id>, y: seq<Id>)
    requires SameSet(x, y) && x != []
    ensures !Distinct(x + y)
  {
    assert x[0] in multiset(x) && x[0] in multiset(y);
    var k :| 0 <= k < |y| && y[k] == x[0];
    assert (x + y)[0] == (x + y)[|x| + k];
  }

  lemma PairIsPlanned(b: Board, team: Team, target: Piece, sets: seq<seq<Id>>) returns (i: nat, j: nat)
    requires Identified(b) && |sets| == 2 && Distinct(Flatten(sets))
    requires IsAlignment(b, team, sets[0], 2) && IsAlignment(b, team, sets[1], 2)
    requires RobberyHolds(b, team, target.id, Ids(Flatten(sets)), 3)
    ensures var twos := Alignments(b, team, 2, 64);
            && i < j < |twos| && Reordered(sets, [twos[i].ids, twos[j].ids])
            && PairSacrifice(b, team, target.id, twos[i].ids, twos[j].ids)
  {
    hide Alignments, RobberyHolds, Flatten;
    var twos := Alignments(b, team, 2, 64);
    AlignmentIsListed(b, team, sets[0], 2);
    AlignmentIsListed(b, team, sets[1], 2);
    var first: nat :| first < |twos| && SameSet(sets[0], twos[first].ids);
    var second: nat :| second < |twos| && SameSet(sets[1], twos[second].ids);
    assert sets == [sets[0], sets[1]];
    FlattenFew(sets[0], sets[1]);
    if first == second {
      DisjointSetsDiffer(sets[0], sets[1]);
    }
    i, j := if first < second then first else second, if first < second then second else first;
    ReorderingKeepsSacrifice(sets, [twos[i].ids, twos[j].ids]);
    FlattenFew(twos[i].ids, twos[j].ids);
  }

  lemma AcceptedIsPlanned(b: Board, team: Team, target: Piece, sets: seq<seq<Id>>) returns (plan: seq<seq<Id>>)
    requires Identified(b) && AcceptedFor(b, team, target, sets)
    ensures PlanFor(b, team, target, plan) && Reordered(sets, plan)
  {
    hide Alignments, RobberyHolds, Reordered, Flatten, IsAlignment, Distinct;
    var twos := Alignments(b, team, 2, 64);
    if |sets| == 1 {
      assert sets == [sets[0]];
      var x := SingleIsPlanned(b, team, target, sets[0], if ShiroTarget(target) then 2 else 3);
      plan := [x.ids];
    } else {
      var i, j := PairIsPlanned(b, team, target, sets);
      plan := [twos[i].ids, twos[j].ids];
    }
  }

  /** RobPiece accepts a target and sacrifice sets exactly when robberyPlans lists that
      target with those sets, up to the order of the sets and of the ids in them. */
  lemma RobPieceMatchesPlans(b: Board, team: Team, target: Id, sets: seq<seq<Id>>)
    requires Identified(b)
    ensures RobberyAccepted(b, team, target, sets)
        <==> exists plan :: Planned(b, team, target, plan) && Reordered(sets, plan)
  {
    if RobberyAccepted(b, team, target, sets) {
      var c :| c in b && b[c].id == target && RobberyOf(b, team, b[c], sets);
      var plan := AcceptedIsPlanned(b, team, b[c], sets);
      assert Planned(b, team, target, plan);
    }
    if plan :| Planned(b, team, target, plan) && Reordered(sets, plan) {
      var c :| c in b && b[c].id == target && PlanFor(b, team, b[c], plan);
      PlanIsAccepted(b, team, b[c], plan, sets);
    }
  }

  lemma TargetSearchMatchesPlans(b: Board, team: Team, target: Piece)
    ensures SacrificeExists(b, team, target) <==> exists plan :: PlanFor(b, team, target, plan)
  {
    hide Alignments, RobberyHolds, PairSacrifice;
    var twos, threes := Alignments(b, team, 2, 64), Alignments(b, team, 3, 64);
    if SacrificeExists(b, team, target) {
      if x :| x in twos && ShiroTarget(target) && RobberyHolds(b, team, target.id, Ids(x.ids), 2) {
        assert PlanFor(b, team, target, [x.ids]);
      } else if x :| x in threes && RobberyHolds(b, team, target.id, Ids(x.ids), 3) {
        assert PlanFor(b, team, target, [x.ids]);
      } else {
        var i, j :| 0 <= i < j < |twos| && PairSacrifice(b, team, target.id, twos[i].ids, twos[j].ids);
        assert PlanFor(b, team, target, [twos[i].ids, twos[j].ids]);
      }
    }
  }

  /** teamHasLegalRobbery holds exactly when robberyPlans has something to list. */
  lemma SearchMatchesPlans(b: Board, team: Team)
    ensures TeamHasLegalRobbery(b, team) <==> exists target, plan :: Planned(b, team, target, plan)
  {
    hide SacrificeExists, PlanFor;
    forall c | c in b { TargetSearchMatchesPlans(b, team, b[c]); }
    if TeamHasLegalRobbery(b, team) {
      var c :| c in b && SacrificeExists(b, team, b[c]);
      var plan :| PlanFor(b, team, b[c], plan);
      assert Planned(b, team, b[c].id, plan);
    }
  }

  /** In a valid RUNNING PICK state with a live timer the three deciders are one: the
      active strategist's RobPiece is accepted exactly for the reorderings of a listed
      plan, and the forced-TB search succeeds exactly when some plan is listed. */
  lemma ThreeDecidersAgree(s: State, target: Id, sets: seq<seq<Id>>, now: Time)
    requires ValidateState(s) && RunningPhase(s, Pick) && LiveTimer(s.timer, now)
    ensures Execute(s, StrategistActor(s.activeTeam), RobPiece(target, sets), now).Some?
        <==> exists plan :: Planned(s.board, s.activeTeam, target, plan) && Reordered(sets, plan)
    ensures TeamHasLegalRobbery(s.board, s.activeTeam)
        <==> exists target, plan :: Planned(s.board, s.activeTeam, target, plan)
  {
    hide ValidateState, Execute, RobberyAccepted, Planned, Reordered, TeamHasLegalRobbery;
    BoardIsIdentified(s);
    A.RobAccepted(s, StrategistActor(s.activeTeam), target, sets, now);
    RobPieceMatchesPlans(s.board, s.activeTeam, target, sets);
    SearchMatchesPlans(s.board, s.activeTeam);
  }

  lemma BoardIsIdentified(s: State)
    requires ValidateState(s)
    ensures Identified(s.board) && (RunningPhase(s, Pick) ==> s.activeTeam.Valid())
  {}
}
