/** The checks of internal/matchengine/validation.go and the construction of a match in
    model.go 358-454 as they are carried out: with counters, seen-sets and early returns.
    They decide exactly Validation.ValidateState and MatchModel.ValidConfiguration. */
module Recovery {
  import opened MatchModel
  import opened BoardRules
  import opened Rules
  import opened Validation
  import opened PlayingBoards
  import opened Analyses
  import opened MatchAggregate
  import Runs
  import Sets

  // ----- rosters

  predicate Clean(ids: seq<int>) {
    (forall i | 0 <= i < |ids| :: ids[i] > 0) && (forall i, j | 0 <= i < j < |ids| :: ids[i] != ids[j])
  }

  lemma CleanWithOneMore(ids: seq<int>, id: int)
    ensures Clean(ids + [id]) <==> Clean(ids) && id > 0 && id !in ids
  {
    var more := ids + [id];
    assert more[|ids|] == id && forall i | 0 <= i < |ids| :: more[i] == ids[i];
  }

  lemma PrefixOfCleanIsClean(ids: seq<int>, more: seq<int>)
    ensures Clean(ids + more) ==> Clean(ids)
  {
    assert forall i | 0 <= i < |ids| :: (ids + more)[i] == ids[i];
  }

  /** One side of the participant scan: everybody positive and nobody seen before. */
  method CheckSide(roster: Roster, seen: set<int>, ghost before: seq<int>) returns (ok: bool, seen': set<int>)
    requires Clean(before) && forall id :: id in seen <==> id in before
    ensures ok <==> Clean(before + Participants(roster))
    ensures ok ==> forall id :: id in seen' <==> id in before + Participants(roster)
  {
    hide Clean;
    var all := Participants(roster);
    seen' := seen;
    assert before + all[..0] == before;
    for i := 0 to |all|
      invariant Clean(before + all[..i]) && forall id :: id in seen' <==> id in before + all[..i]
    {
      CleanWithOneMore(before + all[..i], all[i]);
      assert before + all[..i + 1] == before + all[..i] + [all[i]];
      if all[i] <= 0 || all[i] in seen' {
        assert before + all == before + all[..i + 1] + all[i + 1..];
        PrefixOfCleanIsClean(before + all[..i + 1], all[i + 1..]);
        return false, {};
      }
      seen' := seen' + {all[i]};
    }
    assert all[..|all|] == all;
    return true, seen';
  }

  method CheckRosters(rosters: map<Team, Roster>) returns (ok: bool)
    ensures ok <==> ValidRosters(rosters)
  {
    if |rosters| != 2 || Red !in rosters { return false; }
    var red, seen := CheckSide(rosters[Red], {}, []);
    assert [] + Participants(rosters[Red]) == Participants(rosters[Red]);
    if Blue !in rosters { return false; }
    PrefixOfCleanIsClean(Participants(rosters[Red]), Participants(rosters[Blue]));
    if !red { return false; }
    var blue, _ := CheckSide(rosters[Blue], seen, Participants(rosters[Red]));
    return blue;
  }

  // ----- a new match

  method NewReadyState(c: Configuration) returns (m: Option<Match>)
    ensures m.Some? <==> ValidConfiguration(c)
    ensures m.Some? ==> fresh(m.value) && fresh(m.value.board) && m.value.Valid() && m.value.Snapshot() == ReadyState(c)
  {
    hide ValidRosters, ValidSlotList;
    if !c.firstBan.Valid() || !c.firstPick.Valid() { return None; }
    var listed, pool := CheckSlots(c.slots);
    if !listed { return None; }
    var rosters := CheckRosters(c.rosters);
    if !rosters || !c.timers.Valid() { return None; }
    var next := new Match(ReadyState(c));
    ReadyIsOrderly(c);
    return Some(next);
  }

  predicate Listed(slots: seq<Slot>) {
    && (forall i | 0 <= i < |slots| :: slots[i].id != "" && !slots[i].mod.OtherMod?)
    && (forall i, j | 0 <= i < j < |slots| :: slots[i].id != slots[j].id)
  }

  lemma ListedWithOneMore(slots: seq<Slot>, slot: Slot)
    ensures Listed(slots + [slot])
        <==> Listed(slots) && slot.id != "" && !slot.mod.OtherMod? && forall i | 0 <= i < |slots| :: slots[i].id != slot.id
  {
    var more := slots + [slot];
    assert more[|slots|] == slot && forall i | 0 <= i < |slots| :: more[i] == slots[i];
  }

  lemma PrefixOfListedIsListed(slots: seq<Slot>, more: seq<Slot>)
    ensures Listed(slots + more) ==> Listed(slots)
  {
    assert forall i | 0 <= i < |slots| :: (slots + more)[i] == slots[i];
  }

  lemma {:induction false} PoolHasIds(slots: seq<Slot>)
    ensures forall id :: id in PoolOf(slots) <==> exists i :: 0 <= i < |slots| && slots[i].id == id
    ensures forall id | id in PoolOf(slots) :: PoolOf(slots)[id].id == id
  {
    if slots != [] {
      var front := slots[..|slots| - 1];
      PoolHasIds(front);
      forall id ensures id in PoolOf(slots) <==> exists i :: 0 <= i < |slots| && slots[i].id == id {
        if i :| 0 <= i < |front| && front[i].id == id { assert slots[i].id == id; }
        if id == slots[|slots| - 1].id { assert slots[|slots| - 1].id == id; }
        if i :| 0 <= i < |slots| && slots[i].id == id && i < |front| { assert front[i].id == id; }
      }
    }
  }

  method CheckSlots(slots: seq<Slot>) returns (ok: bool, pool: Pool)
    ensures ok <==> ValidSlotList(slots)
    ensures ok ==> pool == PoolOf(slots)
  {
    hide Listed;
    pool := map[];
    var shiroCount, tbCount := 0, 0;
    EmptyIsListed();
    for i := 0 to |slots|
      invariant Listed(slots[..i]) && pool == PoolOf(slots[..i])
      invariant shiroCount == CountMod(slots[..i], Shiro) && tbCount == CountMod(slots[..i], TB)
    {
      var front, slot := slots[..i], slots[i];
      PoolHasIds(front);
      ListedWithOneMore(front, slot);
      assert slots[..i + 1] == front + [slot] && slots[..i + 1][..i] == front;
      if slot.id == "" || slot.mod.OtherMod? || slot.id in pool {
        assert slots == slots[..i + 1] + slots[i + 1..];
        PrefixOfListedIsListed(slots[..i + 1], slots[i + 1..]);
        ListedIsRequired(slots);
        return false, map[];
      }
      pool := pool[slot.id := slot.(state := Available)];
      if slot.mod == Shiro { shiroCount := shiroCount + 1; }
      if slot.mod == TB { tbCount := tbCount + 1; }
    }
    assert slots[..|slots|] == slots;
    ListedIsRequired(slots);
    ok := shiroCount == 1 && tbCount == 1;
  }

  lemma EmptyIsListed()
    ensures Listed([])
  {}

  lemma ListedIsRequired(slots: seq<Slot>)
    ensures ValidSlotList(slots) <==> Listed(slots) && CountMod(slots, Shiro) == 1 && CountMod(slots, TB) == 1
  {}

  lemma ReadyIsOrderly(c: Configuration)
    requires ValidConfiguration(c)
    ensures UniqueIds(ReadyState(c).board) && Keyed(ReadyState(c).pool)
  {
    hide ValidRosters;
    Runs.ReadyIsValid(c);
    ValidIsOrderly(ReadyState(c));
  }

  /** The recovery checker's states meet what the handlers need. */
  lemma ValidIsOrderly(s: State)
    requires ValidateState(s)
    ensures UniqueIds(s.board) && Keyed(s.pool)
  {
    hide ValidConfig, ValidUsed, ValidPending, ValidTurnAndTimer, ValidLifecycle, ValidEvidence;
    ValidPoolIsKeyed(s.pool);
  }

  lemma ValidPoolIsKeyed(pool: Pool)
    requires ValidPool(pool)
    ensures Keyed(pool)
  {
    forall x, y | IsShiroSlot(pool, x) && IsShiroSlot(pool, y) ensures x == y {
      assert {x, y} <= SlotsOf(pool, Shiro);
      if x != y { Sets.SubsetIsSmaller({x, y}, SlotsOf(pool, Shiro)); }
    }
  }

  // ----- the pool (validation.go 167-197)

  function ModsAmong(pool: Pool, ids: set<Id>, mod: Mod): set<Id> {
    set id | id in ids && id in pool && pool[id].mod == mod
  }

  lemma OneMoreMod(pool: Pool, ids: set<Id>, id: Id, mod: Mod)
    requires id in pool && id !in ids
    ensures |ModsAmong(pool, ids + {id}, mod)| == |ModsAmong(pool, ids, mod)| + if pool[id].mod == mod then 1 else 0
  {
    if pool[id].mod == mod {
      assert ModsAmong(pool, ids + {id}, mod) == ModsAmong(pool, ids, mod) + {id};
    } else {
      assert ModsAmong(pool, ids + {id}, mod) == ModsAmong(pool, ids, mod);
    }
  }

  method CheckPool(pool: Pool) returns (ok: bool)
    ensures ok <==> ValidPool(pool)
  {
    var shiroCount, tbCount := 0, 0;
    var todo := pool.Keys;
    while todo != {}
      invariant todo <= pool.Keys
      invariant forall id | id in pool && id !in todo :: ValidSlot(id, pool[id])
      invariant shiroCount == |ModsAmong(pool, pool.Keys - todo, Shiro)| && tbCount == |ModsAmong(pool, pool.Keys - todo, TB)|
    {
      var id :| id in todo;
      OneMoreMod(pool, pool.Keys - todo, id, Shiro);
      OneMoreMod(pool, pool.Keys - todo, id, TB);
      assert pool.Keys - (todo - {id}) == (pool.Keys - todo) + {id};
      todo := todo - {id};
      var slot := pool[id];
      if id == "" || slot.id != id || slot.mod.OtherMod? || slot.state.OtherSlotState? { return false; }
      if slot.mod == Shiro {
        shiroCount := shiroCount + 1;
        if slot.state == Banned { return false; }
      }
      if slot.mod == TB {
        tbCount := tbCount + 1;
        if slot.state != Available { return false; }
      }
    }
    assert pool.Keys - todo == pool.Keys;
    assert ModsAmong(pool, pool.Keys, Shiro) == SlotsOf(pool, Shiro) && ModsAmong(pool, pool.Keys, TB) == SlotsOf(pool, TB);
    return shiroCount == 1 && tbCount == 1;
  }

  // ----- the board (validation.go 199-265)

  ghost predicate IdAmong(b: Board, cells: set<Cell>, id: Id) { exists c :: c in cells && c in b && b[c].id == id }

  ghost predicate SourceAmong(b: Board, cells: set<Cell>, id: Id) {
    exists c :: c in cells && c in b && b[c].source == id
  }

  predicate Alike(b: Board, x: Cell, y: Cell) {
    x in b && y in b && (b[x].id == b[y].id || b[x].source == b[y].source)
  }

  /** No two of the scanned pieces share an id or a slot. */
  ghost predicate ScannedOnce(b: Board, cells: set<Cell>) {
    forall x, y :: x in cells && y in cells && Alike(b, x, y) ==> x == y
  }

  /** The ids and slots seen so far are those of the scanned pieces. */
  ghost predicate Scanned(b: Board, cells: set<Cell>, ids: set<Id>, sources: set<Id>) {
    && (forall id :: id in ids <==> IdAmong(b, cells, id))
    && (forall id :: id in sources <==> SourceAmong(b, cells, id))
  }

  lemma ScannedOneMore(b: Board, cells: set<Cell>, ids: set<Id>, sources: set<Id>, c: Cell)
    requires Scanned(b, cells, ids, sources) && c in b
    ensures Scanned(b, cells + {c}, ids + {b[c].id}, sources + {b[c].source})
  {}

  lemma StillOnce(b: Board, cells: set<Cell>, ids: set<Id>, sources: set<Id>, c: Cell)
    requires Scanned(b, cells, ids, sources) && ScannedOnce(b, cells) && c in b
    requires b[c].id !in ids && b[c].source !in sources
    ensures ScannedOnce(b, cells + {c})
  {}

  lemma RepeatedIdIsInvalid(pool: Pool, b: Board, cells: set<Cell>, ids: set<Id>, sources: set<Id>, c: Cell)
    requires Scanned(b, cells, ids, sources) && c in b && c !in cells && (b[c].id in ids || b[c].source in sources)
    ensures !ValidBoard(pool, b)
  {}

  lemma OnceIsUnique(b: Board)
    requires ScannedOnce(b, b.Keys)
    ensures UniqueIds(b) && UniqueSources(b)
  {}

  /** Which scanned piece waits for its result, if one does. */
  ghost predicate WaitsAmong(b: Board, cells: set<Cell>, waiting: Id) {
    if waiting == "" then forall c | c in cells :: !Waiting(b, c)
    else
      && (exists c :: c in cells && Waiting(b, c) && b[c].id == waiting)
      && (forall x, y | x in cells && y in cells && Waiting(b, x) && Waiting(b, y) :: x == y)
  }

  method CheckBoard(pool: Pool, b: Board) returns (ok: bool, waiting: Id)
    ensures ok <==> ValidBoard(pool, b)
    ensures ok ==> WaitsAmong(b, b.Keys, waiting)
  {
    hide Scanned, ScannedOnce, IdAmong, SourceAmong, ValidOutcome, ValidForce, UniqueIds, UniqueSources,
      FromSelectedSlot;
    waiting := "";
    var seenIds: set<Id>, seenSources: set<Id> := {}, {};
    var todo := b.Keys;
    NothingScanned(b);
    while todo != {}
      invariant todo <= b.Keys
      invariant Scanned(b, b.Keys - todo, seenIds, seenSources) && ScannedOnce(b, b.Keys - todo)
      invariant forall c | c in b && c !in todo :: ValidPiece(c, b[c]) && FromSelectedSlot(pool, b[c])
      invariant WaitsAmong(b, b.Keys - todo, waiting)
    {
      var c :| c in todo;
      var piece := b[c];
      ghost var done := b.Keys - todo;
      ScannedOneMore(b, done, seenIds, seenSources, c);
      assert b.Keys - (todo - {c}) == done + {c};
      if !OnBoard(c) || piece.id == "" { return false, ""; }
      if piece.id in seenIds {
        RepeatedIdIsInvalid(pool, b, done, seenIds, seenSources, c);
        return false, "";
      }
      if !piece.selectedBy.Valid() || !FromSelectedSlot(pool, piece) { return false, ""; }
      if piece.source in seenSources {
        RepeatedIdIsInvalid(pool, b, done, seenIds, seenSources, c);
        return false, "";
      }
      if !ValidForce(piece) || !ValidOutcome(piece) { return false, ""; }
      if piece.outcome == WaitingResult {
        if waiting != "" {
          TwoWaitingIsInvalid(pool, b, done, waiting, c);
          return false, "";
        }
        waiting := piece.id;
      }
      StillOnce(b, done, seenIds, seenSources, c);
      seenIds, seenSources := seenIds + {piece.id}, seenSources + {piece.source};
      todo := todo - {c};
    }
    assert b.Keys - todo == b.Keys;
    OnceIsUnique(b);
    WaitingAtMostOnce(b, waiting);
    var covered := SelectedAreCovered(pool, b, seenIds, seenSources);
    return covered, waiting;
  }

  lemma NothingScanned(b: Board)
    ensures Scanned(b, b.Keys - b.Keys, {}, {}) && ScannedOnce(b, b.Keys - b.Keys)
  {}

  lemma TwoWaitingIsInvalid(pool: Pool, b: Board, cells: set<Cell>, waiting: Id, c: Cell)
    requires WaitsAmong(b, cells, waiting) && waiting != "" && c !in cells && Waiting(b, c)
    ensures !ValidBoard(pool, b)
  {}

  lemma WaitingAtMostOnce(b: Board, waiting: Id)
    requires WaitsAmong(b, b.Keys, waiting)
    ensures AtMostOneWaiting(b)
  {}

  lemma SourcesAreFrom(b: Board, sources: set<Id>, ids: set<Id>)
    requires Scanned(b, b.Keys, ids, sources)
    ensures forall id :: id in sources <==> HasPieceFrom(b, id)
  {}

  method SelectedAreCovered(pool: Pool, b: Board, ghost ids: set<Id>, sources: set<Id>) returns (ok: bool)
    requires Scanned(b, b.Keys, ids, sources) && forall c | c in b :: FromSelectedSlot(pool, b[c])
    ensures ok <==> forall id | id in pool && pool[id].state == Selected :: HasPieceFrom(b, id)
  {
    hide IdAmong;
    assert forall id :: id in sources <==> HasPieceFrom(b, id) by { SourcesAreFrom(b, sources, ids); }
    hide Scanned;
    var todo := pool.Keys;
    while todo != {}
      invariant todo <= pool.Keys
      invariant forall id | id in pool && id !in todo && pool[id].state == Selected :: HasPieceFrom(b, id)
    {
      var id :| id in todo;
      todo := todo - {id};
      if (pool[id].state == Selected) != (id in sources) { return false; }
    }
    return true;
  }

  // ----- flags, pending piece, evidence (validation.go 149-165, 257-263, 350-470)

  method CheckFlags(flags: map<Team, bool>) returns (ok: bool)
    ensures ok <==> ValidFlags(flags)
  {
    if Red !in flags || Blue !in flags { return false; }
    var todo := flags.Keys;
    while todo != {}
      invariant todo <= flags.Keys && forall team | team in flags && team !in todo :: team.Valid()
    {
      var team :| team in todo;
      todo := todo - {team};
      if !team.Valid() { return false; }
    }
    return true;
  }

  predicate PendingFits(phase: Phase, pending: Id, waiting: Id) {
    if phase == WaitingForResult then pending != "" && pending == waiting else pending == "" && waiting == ""
  }

  lemma PendingFitsExactly(s: State, waiting: Id)
    requires WaitsAmong(s.board, s.board.Keys, waiting) && forall c | c in s.board :: s.board[c].id != ""
    ensures ValidPending(s) <==> PendingFits(s.phase, s.pendingPiece, waiting)
  {}

  method CheckTBEntry(m: Match) returns (ok: bool)
    requires m.Valid()
    ensures ok <==> ValidTBEntry(m.Snapshot())
  {
    hide TBIsForced, UniqueIds, Keyed;
    if m.tbEntry.None? {
      if (m.lifecycle == Running || m.lifecycle == Suspended) && m.phase == Pick {
        var forced := m.ForcedTBMet();
        if forced { return false; }
      }
      return m.phase != TBPreparation && m.phase != TBPlaying;
    }
    var inTB := m.phase == TBPreparation || m.phase == TBPlaying;
    if m.pendingTB.Some? || m.lifecycle == Ready || m.lifecycle == Lifecycle.AdjudicationRequired { return false; }
    if (m.lifecycle == Running || m.lifecycle == Suspended) && !inTB { return false; }
    var entry := m.tbEntry.value;
    match entry.basis {
      case CaptainAgreement =>
        return entry.requestId != "" && entry.requestedBy.Valid() && 11 <= m.turn <= 14;
      case ForcedAfterRobberyChecks =>
        if entry.requestId != "" || entry.requestedBy != NoTeam { return false; }
        ok := m.ForcedTBMet();
      case OtherBasis =>
        return false;
    }
  }

  method CheckCounts(m: Match, red: int, blue: int) returns (ok: bool)
    ensures ok <==> StalemateSupports(m.Snapshot(), red, blue)
  {
    hide Stalemated, WonCount;
    var analysis := Analyze(m.pool, m.board);
    ok := analysis.stalemate && analysis.redWon == red && analysis.blueWon == blue;
  }

  method CheckResult(m: Match, r: Result) returns (ok: bool)
    requires m.Valid()
    ensures ok <==> ValidResult(m.Snapshot(), r)
  {
    hide HasFour, StalemateSupports, SurrenderEvidence, UniqueIds, Keyed;
    match r.reason {
      case FourAlignment =>
        if r.surrenderingTeam.Some? || r.confirming != [] || r.redWon != 0 || r.blueWon != 0 || m.tbEntry.Some? {
          return false;
        }
        ok := m.board.FourAligned(r.winner);
      case TBResult =>
        return r.surrenderingTeam.None? && r.confirming == [] && r.redWon == 0 && r.blueWon == 0 && m.tbEntry.Some?;
      case Surrender =>
        if r.redWon != 0 || r.blueWon != 0 || r.surrenderingTeam.None? || !r.surrenderingTeam.value.Valid() {
          return false;
        }
        if r.surrenderingTeam.value.Opponent() != r.winner { return false; }
        var _, confirmed := CheckSurrender(RosterOf(m.config.rosters, r.surrenderingTeam.value), r.confirming);
        ok := confirmed;
      case StalemateWonCount =>
        if r.surrenderingTeam.Some? || r.confirming != [] || m.tbEntry.Some? { return false; }
        if r.redWon < 0 || r.blueWon < 0 || r.redWon == r.blueWon { return false; }
        if (r.redWon > r.blueWon) != (r.winner == Red) { return false; }
        ok := CheckCounts(m, r.redWon, r.blueWon);
      case OtherReason =>
        return false;
    }
  }

  method CheckEvidence(m: Match) returns (ok: bool)
    requires m.Valid()
    ensures ok <==> ValidEvidence(m.Snapshot())
  {
    hide ValidTBEntry, ValidResult, StalemateSupports, MissingReason, UniqueIds, Keyed;
    if !ValidPendingTB(m.Snapshot()) { return false; }
    var entry := CheckTBEntry(m);
    if !entry { return false; }
    if m.suspension.Some? && (MissingReason(m.suspension.value.reason) || m.suspension.value.at == 0) { return false; }
    if m.lifecycle == Aborted && MissingReason(m.ending.abortReason) { return false; }
    if m.lifecycle == Lifecycle.AdjudicationRequired && m.ending.stalemate.Some? {
      var counts := m.ending.stalemate.value;
      if counts.redWon < 0 || counts.redWon != counts.blueWon { return false; }
      var supported := CheckCounts(m, counts.redWon, counts.blueWon);
      if !supported { return false; }
    }
    if m.lifecycle == Finished && m.ending.result.Some? {
      ok := CheckResult(m, m.ending.result.value);
    } else {
      ok := true;
    }
  }

  /** ValidateState, for any state of the aggregate whatever. */
  method CheckState(m: Match) returns (ok: bool)
    ensures ok <==> ValidateState(m.Snapshot())
  {
    hide ValidRosters, ValidPool, ValidBoard, ValidPending, ValidTurnAndTimer, ValidLifecycle, ValidEvidence,
      WaitsAmong, UniqueIds, Keyed;
    var s := m.Snapshot();
    if s.phase == OtherPhase || !s.config.firstBan.Valid() || !s.config.firstPick.Valid() { return false; }
    var rosters := CheckRosters(s.config.rosters);
    if !rosters || !s.config.timers.Valid() { return false; }
    var robbery := CheckFlags(s.used.robbery);
    var teamPause := CheckFlags(s.used.teamPause);
    if !robbery || !teamPause { return false; }
    var pool := CheckPool(s.pool);
    if !pool { return false; }
    ValidPoolIsKeyed(s.pool);
    var board, waiting := CheckBoard(s.pool, s.board);
    if !board { return false; }
    BoardFacts(s);
    PendingFitsExactly(s, waiting);
    if !PendingFits(s.phase, s.pendingPiece, waiting) || !ValidTurnAndTimer(s) || !ValidLifecycle(s) { return false; }
    ok := CheckEvidence(m);
  }

  lemma BoardFacts(s: State)
    requires ValidBoard(s.pool, s.board)
    ensures UniqueIds(s.board) && forall c | c in s.board :: s.board[c].id != ""
  {}
}
