/** Mappool entries (internal/domain/mappool.go 45-141), their normalization (internal/
    service/mappool_service.go 139-154), the engine slots made from them (internal/service/
    formal_match_factory.go 106-152) and the way back from a slot id to a beatmap
    (internal/service/formal_match_read.go 112-127). */
module Mappool {
  import opened MatchModel
  import opened PoolSlots

  /** `note` stands for the fields nothing here reads: selector and skill. */
  datatype Entry = Entry(mod: Mod, index: int, beatmap: Option<int>, note: string)

  // ----- validation

  datatype Problem = BadMod(at: nat) | BadIndex(at: nat) | BadBeatmap(at: nat) | MissingTB

  predicate BeatmapFits(e: Entry) {
    if e.mod == Shiro then e.beatmap.None? else e.beatmap.Some? && e.beatmap.value > 0
  }

  predicate ValidEntry(e: Entry) { !e.mod.OtherMod? && e.index >= 1 && BeatmapFits(e) }

  function SlotOf(e: Entry): PoolSlot { PoolSlot(e.mod, e.index) }

  predicate AllValid(entries: seq<Entry>) { forall i | 0 <= i < |entries| :: ValidEntry(entries[i]) }

  predicate DistinctSlots(entries: seq<Entry>) {
    forall i, j | 0 <= i < j < |entries| :: SlotOf(entries[i]) != SlotOf(entries[j])
  }

  predicate HasTB(entries: seq<Entry>) { exists i :: 0 <= i < |entries| && entries[i].mod == TB }

  /** What a mappool promises: known mods, positive indexes, no slot twice, beatmaps exactly
      where they belong, and a TB. */
  predicate ValidEntries(entries: seq<Entry>) { AllValid(entries) && DistinctSlots(entries) && HasTB(entries) }

  /** An earlier entry has the same slot. */
  predicate Repeats(entries: seq<Entry>, i: nat)
    requires i < |entries|
  {
    exists j :: 0 <= j < i && SlotOf(entries[j]) == SlotOf(entries[i])
  }

  /** What is reported of an entry: at most one field, the first that is wrong. */
  function ProblemAt(entries: seq<Entry>, i: nat): seq<Problem>
    requires i < |entries|
  {
    if entries[i].mod.OtherMod? then [BadMod(i)]
    else if entries[i].index < 1 || Repeats(entries, i) then [BadIndex(i)]
    else if !BeatmapFits(entries[i]) then [BadBeatmap(i)]
    else []
  }

  function ProblemsUpTo(entries: seq<Entry>, n: nat): seq<Problem>
    requires n <= |entries|
  {
    if n == 0 then [] else ProblemsUpTo(entries, n - 1) + ProblemAt(entries, n - 1)
  }

  /** A TB entry without a positive index is none. */
  predicate CountedTB(entries: seq<Entry>, n: nat)
    requires n <= |entries|
  {
    exists i :: 0 <= i < n && entries[i].mod == TB && entries[i].index >= 1
  }

  /** The well-formed slots among the first entries. */
  predicate Seen(entries: seq<Entry>, n: nat, seen: set<PoolSlot>)
    requires n <= |entries|
  {
    && (forall i | 0 <= i < n && !entries[i].mod.OtherMod? && entries[i].index >= 1 :: SlotOf(entries[i]) in seen)
    && (forall slot | slot in seen :: exists i :: 0 <= i < n && SlotOf(entries[i]) == slot)
  }

  function Problems(entries: seq<Entry>): seq<Problem> {
    ProblemsUpTo(entries, |entries|) + (if CountedTB(entries, |entries|) then [] else [MissingTB])
  }

  /** ValidateEntries reports, entry by entry and in order, the first field that is wrong,
      and at last a missing TB. */
  method ValidateEntries(entries: seq<Entry>) returns (problems: seq<Problem>)
    ensures problems == Problems(entries)
    ensures problems == [] <==> ValidEntries(entries)
  {
    problems := [];
    var seen: set<PoolSlot> := {};
    var hasTB := false;
    for i := 0 to |entries|
      invariant problems == ProblemsUpTo(entries, i)
      invariant Seen(entries, i, seen) && (hasTB <==> CountedTB(entries, i))
    {
      var entry := entries[i];
      if entry.mod.OtherMod? {
        problems := problems + [BadMod(i)];
        continue;
      }
      if entry.index < 1 {
        problems := problems + [BadIndex(i)];
        continue;
      }
      var slot := PoolSlot(entry.mod, entry.index);
      assert slot in seen <==> Repeats(entries, i);
      if slot in seen {
        problems := problems + [BadIndex(i)];
        RepeatedTB(entries, i);
        continue;
      }
      seen := seen + {slot};
      if entry.mod == Shiro {
        if entry.beatmap.Some? {
          problems := problems + [BadBeatmap(i)];
        }
        continue;
      }
      if entry.mod == TB {
        hasTB := true;
      }
      if entry.beatmap.None? || entry.beatmap.value <= 0 {
        problems := problems + [BadBeatmap(i)];
      }
    }
    if !hasTB {
      problems := problems + [MissingTB];
    }
    NoProblemsExactly(entries);
  }

  // A repeated slot was counted the first time.
  lemma RepeatedTB(entries: seq<Entry>, i: nat)
    requires i < |entries| && Repeats(entries, i) && entries[i].index >= 1
    ensures CountedTB(entries, i + 1) <==> CountedTB(entries, i)
  {
    var j :| 0 <= j < i && SlotOf(entries[j]) == SlotOf(entries[i]);
    assert entries[j].mod == entries[i].mod && entries[j].index == entries[i].index;
  }

  lemma {:induction false} NoProblemsUpTo(entries: seq<Entry>, n: nat)
    requires n <= |entries|
    ensures ProblemsUpTo(entries, n) == [] <==> forall i | 0 <= i < n :: ValidEntry(entries[i]) && !Repeats(entries, i)
  {
    if n > 0 { NoProblemsUpTo(entries, n - 1); }
  }

  /** Nothing is reported exactly of the valid lists. */
  lemma NoProblemsExactly(entries: seq<Entry>)
    ensures ProblemsUpTo(entries, |entries|) == [] && CountedTB(entries, |entries|) <==> ValidEntries(entries)
  {
    NoProblemsUpTo(entries, |entries|);
    if ValidEntries(entries) {
      var i :| 0 <= i < |entries| && entries[i].mod == TB;
      assert ValidEntry(entries[i]);
    }
    if forall i | 0 <= i < |entries| :: !Repeats(entries, i) {
      forall i, j | 0 <= i < j < |entries| ensures SlotOf(entries[i]) != SlotOf(entries[j]) {
        assert !Repeats(entries, j);
      }
    }
  }

  /** The entry repeats the slot of an earlier one. */
  predicate TakesSlotAgain(entries: seq<Entry>, i: nat)
    requires i < |entries|
  {
    exists j :: 0 <= j < i && entries[j].mod == entries[i].mod && entries[j].index == entries[i].index
  }

  /** What each problem says of the list; of an entry only the first wrong field is a problem. */
  predicate IsWrong(entries: seq<Entry>, problem: Problem) {
    match problem
    case BadMod(i) => i < |entries| && entries[i].mod.OtherMod?
    case BadIndex(i) =>
      i < |entries| && !entries[i].mod.OtherMod? && (entries[i].index < 1 || TakesSlotAgain(entries, i))
    case BadBeatmap(i) =>
      && i < |entries| && !entries[i].mod.OtherMod? && entries[i].index >= 1 && !TakesSlotAgain(entries, i)
      && (if entries[i].mod == Shiro then entries[i].beatmap.Some? else entries[i].beatmap.None? || entries[i].beatmap.value <= 0)
    case MissingTB => forall i | 0 <= i < |entries| :: entries[i].mod != TB || entries[i].index < 1
  }

  function Place(entries: seq<Entry>, problem: Problem): nat { if problem.MissingTB? then |entries| else problem.at }

  predicate ByPlace(entries: seq<Entry>, problems: seq<Problem>) {
    forall k, l | 0 <= k < l < |problems| :: Place(entries, problems[k]) < Place(entries, problems[l])
  }

  lemma ProblemAtTells(entries: seq<Entry>, i: nat)
    requires i < |entries|
    ensures |ProblemAt(entries, i)| <= 1
    ensures forall p :: p in ProblemAt(entries, i) <==> !p.MissingTB? && p.at == i && IsWrong(entries, p)
  {
    assert TakesSlotAgain(entries, i) <==> Repeats(entries, i);
  }

  lemma {:induction false} ProblemsTell(entries: seq<Entry>, n: nat)
    requires n <= |entries|
    ensures forall p :: p in ProblemsUpTo(entries, n) <==> !p.MissingTB? && p.at < n && IsWrong(entries, p)
    ensures ByPlace(entries, ProblemsUpTo(entries, n))
  {
    hide IsWrong, ProblemAt;
    if n > 0 {
      ProblemsTell(entries, n - 1);
      ProblemAtTells(entries, n - 1);
      var before, last := ProblemsUpTo(entries, n - 1), ProblemAt(entries, n - 1);
      assert forall p :: p in before + last <==> p in before || p in last;
      forall k, l | 0 <= k < l < |before + last| ensures Place(entries, (before + last)[k]) < Place(entries, (before + last)[l]) {
        if l < |before| { assert Place(entries, before[k]) < Place(entries, before[l]); }
        else { assert before[k] in before && last[0] in last; }
      }
    }
  }

  /** Every wrong entry is reported once, by its place and its first wrong field, in the order of
      the list, and a missing TB at the end. */
  lemma ProblemsAreExact(entries: seq<Entry>)
    ensures forall p :: p in Problems(entries) <==> IsWrong(entries, p)
    ensures ByPlace(entries, Problems(entries))
  {
    var found, missing := ProblemsUpTo(entries, |entries|), if CountedTB(entries, |entries|) then [] else [MissingTB];
    ProblemsTell(entries, |entries|);
    assert forall p :: p in found + missing <==> p in found || p in missing;
    forall k, l | 0 <= k < l < |found + missing| ensures Place(entries, (found + missing)[k]) < Place(entries, (found + missing)[l]) {
      assert found[k] in found;
      if l < |found| { assert Place(entries, found[k]) < Place(entries, found[l]); }
    }
  }

  // ----- sorting one group by index

  function Of(entries: seq<Entry>, mod: Mod): seq<Entry> {
    if entries == [] then []
    else
      Of(entries[..|entries| - 1], mod)
      + if entries[|entries| - 1].mod == mod then [entries[|entries| - 1]] else []
  }

  function Insert(sorted: seq<Entry>, e: Entry): seq<Entry> {
    if sorted == [] || sorted[|sorted| - 1].index <= e.index then sorted + [e]
    else Insert(sorted[..|sorted| - 1], e) + [sorted[|sorted| - 1]]
  }

  function SortByIndex(group: seq<Entry>): seq<Entry> {
    if group == [] then [] else Insert(SortByIndex(group[..|group| - 1]), group[|group| - 1])
  }

  lemma {:induction false} InsertAt(sorted: seq<Entry>, e: Entry, j: nat)
    requires j <= |sorted| && (j > 0 ==> sorted[j - 1].index <= e.index)
    requires forall k | j <= k < |sorted| :: sorted[k].index > e.index
    ensures Insert(sorted, e) == sorted[..j] + [e] + sorted[j..]
  {
    if j < |sorted| {
      var front := sorted[..|sorted| - 1];
      InsertAt(front, e, j);
      assert front[..j] == sorted[..j] && sorted[j..] == front[j..] + [sorted[|sorted| - 1]];
    } else {
      assert sorted[..j] == sorted && sorted[j..] == [];
    }
  }

  // The entry at i has sunk to j, past larger ones.
  predicate Sunk(was: seq<Entry>, group: seq<Entry>, i: nat, j: nat) {
    && j <= i < |was| == |group| && group[j] == was[i]
    && (forall k | 0 <= k < j :: group[k] == was[k])
    && (forall k | j <= k < i :: group[k + 1] == was[k] && was[k].index > was[i].index)
    && (forall k | i < k < |was| :: group[k] == was[k])
  }

  lemma SunkFurther(was: seq<Entry>, group: seq<Entry>, i: nat, j: nat)
    requires Sunk(was, group, i, j) && j > 0 && group[j].index < group[j - 1].index
    ensures Sunk(was, group[j := group[j - 1]][j - 1 := group[j]], i, j - 1)
  {}

  lemma SunkIsInserted(was: seq<Entry>, group: seq<Entry>, i: nat, j: nat)
    requires Sunk(was, group, i, j) && (j > 0 ==> group[j - 1].index <= was[i].index)
    ensures group[..i + 1] == Insert(was[..i], was[i]) && group[i + 1..] == was[i + 1..]
  {
    InsertAt(was[..i], was[i], j);
    assert group[..i + 1] == was[..i][..j] + [was[i]] + was[..i][j..];
  }

  /** One round of the sort: the entry at i sinks past the larger ones before it. */
  method Sink(group: array<Entry>, i: nat)
    requires i < group.Length
    modifies group
    ensures group[..i + 1] == Insert(old(group[..i]), old(group[i]))
    ensures group[i + 1..] == old(group[i + 1..])
  {
    hide Insert, Sunk;
    ghost var was := group[..];
    var j := i;
    StartsSunk(was, i);
    while j > 0 && group[j].index < group[j - 1].index
      invariant 0 <= j <= i && Sunk(was, group[..], i, j)
    {
      SunkFurther(was, group[..], i, j);
      ghost var before := group[..];
      group[j], group[j - 1] := group[j - 1], group[j];
      assert group[..] == before[j := before[j - 1]][j - 1 := before[j]];
      j := j - 1;
    }
    SunkEntry(was, group[..], i, j);
    SunkIsInserted(was, group[..], i, j);
    assert group[..][..i + 1] == group[..i + 1] && was[..i] == old(group[..i]);
    assert group[..][i + 1..] == group[i + 1..] && was[i + 1..] == old(group[i + 1..]);
  }

  lemma StartsSunk(was: seq<Entry>, i: nat)
    requires i < |was|
    ensures Sunk(was, was, i, i)
  {}

  lemma SunkEntry(was: seq<Entry>, group: seq<Entry>, i: nat, j: nat)
    requires Sunk(was, group, i, j)
    ensures j <= i < |was| == |group| && group[j] == was[i]
  {}

  /** The insertion sort of SortedEntries, swapping neighbours in place. */
  method InsertionSort(group: array<Entry>)
    modifies group
    ensures group[..] == SortByIndex(old(group[..]))
  {
    hide Insert;
    ghost var was := group[..];
    var i := 0;
    while i < group.Length
      invariant 0 <= i <= group.Length
      invariant group[..i] == SortByIndex(was[..i]) && group[i..] == was[i..]
    {
      assert was[..i + 1][..i] == was[..i] && group[i] == was[i];
      Sink(group, i);
      i := i + 1;
    }
    assert was[..group.Length] == was && group[..group.Length] == group[..];
  }

  predicate Ascending(group: seq<Entry>) { forall i, j | 0 <= i < j < |group| :: group[i].index <= group[j].index }

  /** The entries of one index, in order: what a stable sort must leave alone. */
  function Having(group: seq<Entry>, index: int): seq<Entry> {
    if group == [] then []
    else
      Having(group[..|group| - 1], index)
      + if group[|group| - 1].index == index then [group[|group| - 1]] else []
  }

  lemma {:induction false} InsertPermutes(sorted: seq<Entry>, e: Entry)
    ensures multiset(Insert(sorted, e)) == multiset(sorted) + multiset{e}
  {
    if sorted != [] && sorted[|sorted| - 1].index > e.index {
      InsertPermutes(sorted[..|sorted| - 1], e);
      assert sorted == sorted[..|sorted| - 1] + [sorted[|sorted| - 1]];
    }
  }

  lemma {:induction false} InsertAscends(sorted: seq<Entry>, e: Entry)
    requires Ascending(sorted)
    ensures Ascending(Insert(sorted, e))
  {
    if sorted != [] && sorted[|sorted| - 1].index > e.index {
      var front, last := sorted[..|sorted| - 1], sorted[|sorted| - 1];
      InsertAscends(front, e);
      InsertPermutes(front, e);
      var inserted := Insert(front, e);
      forall i | 0 <= i < |inserted| ensures inserted[i].index <= last.index {
        assert inserted[i] in multiset(inserted);
        assert inserted[i] in front || inserted[i] == e;
      }
    }
  }

  lemma HavingLast(front: seq<Entry>, last: Entry, index: int)
    ensures Having(front + [last], index) == Having(front, index) + if last.index == index then [last] else []
  {}

  lemma {:induction false} InsertKeepsOrder(sorted: seq<Entry>, e: Entry, index: int)
    ensures Having(Insert(sorted, e), index) == Having(sorted, index) + if e.index == index then [e] else []
  {
    if sorted == [] || sorted[|sorted| - 1].index <= e.index {
      HavingLast(sorted, e, index);
    } else {
      var front, last := sorted[..|sorted| - 1], sorted[|sorted| - 1];
      InsertKeepsOrder(front, e, index);
      HavingLast(Insert(front, e), last, index);
    }
  }

  /** Sorting a group is stable: it permutes the group into ascending order and keeps the
      order of entries with equal indexes. */
  lemma {:induction false} SortingIsStable(group: seq<Entry>, index: int)
    ensures Ascending(SortByIndex(group))
    ensures multiset(SortByIndex(group)) == multiset(group)
    ensures Having(SortByIndex(group), index) == Having(group, index)
  {
    if group != [] {
      var front, last := group[..|group| - 1], group[|group| - 1];
      SortingIsStable(front, index);
      InsertPermutes(SortByIndex(front), last);
      InsertAscends(SortByIndex(front), last);
      InsertKeepsOrder(SortByIndex(front), last, index);
      assert group == front + [last];
    }
  }

  lemma {:induction false} SortedStays(group: seq<Entry>)
    requires Ascending(group)
    ensures SortByIndex(group) == group
  {
    hide Insert;
    if group != [] {
      var front, last := group[..|group| - 1], group[|group| - 1];
      SortedStays(front);
      LastIsAppended(front, last);
      assert group == front + [last];
    }
  }

  lemma LastIsAppended(front: seq<Entry>, last: Entry)
    requires front == [] || front[|front| - 1].index <= last.index
    ensures Insert(front, last) == front + [last]
  {}

  lemma SortingKeepsMod(group: seq<Entry>, mod: Mod)
    requires forall i | 0 <= i < |group| :: group[i].mod == mod
    ensures forall i | 0 <= i < |SortByIndex(group)| :: SortByIndex(group)[i].mod == mod
    ensures |SortByIndex(group)| == |group|
  {
    SortingIsStable(group, 0);
    var sorted := SortByIndex(group);
    assert |multiset(sorted)| == |sorted| && |multiset(group)| == |group|;
    forall i | 0 <= i < |sorted| ensures sorted[i].mod == mod { assert sorted[i] in multiset(group); }
  }

  // ----- groups in canonical mod order

  type Groups = seq<seq<Entry>>

  function Joined(groups: Groups): seq<Entry> {
    if groups == [] then [] else Joined(groups[..|groups| - 1]) + groups[|groups| - 1]
  }

  function SortedGroup(entries: seq<Entry>, mod: Mod): seq<Entry> { SortByIndex(Of(entries, mod)) }

  function GroupsOf(entries: seq<Entry>): (groups: Groups)
    ensures |groups| == MOD_COUNT && forall i: nat | i < MOD_COUNT :: groups[i] == Of(entries, ModAt(i))
  {
    seq(MOD_COUNT, i requires 0 <= i < MOD_COUNT => Of(entries, ModAt(i)))
  }

  function SortedGroups(entries: seq<Entry>): (groups: Groups)
    ensures |groups| == MOD_COUNT && forall i: nat | i < MOD_COUNT :: groups[i] == SortedGroup(entries, ModAt(i))
  {
    seq(MOD_COUNT, i requires 0 <= i < MOD_COUNT => SortedGroup(entries, ModAt(i)))
  }

  /** SortedEntries: grouped by mod, ordered by index; entries of unknown mods drop out. */
  function Sorted(entries: seq<Entry>): seq<Entry> { Joined(SortedGroups(entries)) }

  /** Sorting puts the groups in this order, whatever the order of the entries. */
  lemma SortedByMod(entries: seq<Entry>)
    ensures Sorted(entries) ==
              SortedGroup(entries, NM) + SortedGroup(entries, HD) + SortedGroup(entries, HR) + SortedGroup(entries, DT)
              + SortedGroup(entries, FM) + SortedGroup(entries, Shiro) + SortedGroup(entries, TB)
  {
    hide SortedGroup;
    var g := SortedGroups(entries);
    assert g[..7][..6] == g[..6] && g[..6][..5] == g[..5] && g[..5][..4] == g[..4] && g[..4][..3] == g[..3] && g[..3][..2] == g[..2];
    assert g[..2][..1] == g[..1] && g[..1][..0] == [] && g == g[..7];
    assert Joined(g[..1]) == g[0];
    assert Joined(g[..2]) == g[0] + g[1];
    assert Joined(g[..3]) == g[0] + g[1] + g[2];
    assert Joined(g[..4]) == g[0] + g[1] + g[2] + g[3];
    assert Joined(g[..5]) == g[0] + g[1] + g[2] + g[3] + g[4];
    assert Joined(g[..6]) == g[0] + g[1] + g[2] + g[3] + g[4] + g[5];
  }

  predicate HaveMod(group: seq<Entry>, mod: Mod) { forall i | 0 <= i < |group| :: group[i].mod == mod }

  lemma {:induction false} OfHasMod(entries: seq<Entry>, mod: Mod)
    ensures HaveMod(Of(entries, mod), mod)
  {
    if entries != [] { OfHasMod(entries[..|entries| - 1], mod); }
  }

  lemma OfLast(front: seq<Entry>, last: Entry, mod: Mod)
    ensures Of(front + [last], mod) == Of(front, mod) + if last.mod == mod then [last] else []
  {}

  lemma Regroup(x: seq<Entry>, front: seq<Entry>, last: Entry)
    ensures x + (front + [last]) == (x + front) + [last]
  {}

  lemma {:induction false} OfConcat(x: seq<Entry>, y: seq<Entry>, mod: Mod)
    ensures Of(x + y, mod) == Of(x, mod) + Of(y, mod)
  {
    if y == [] {
      assert x + y == x;
    } else {
      var front, last := y[..|y| - 1], y[|y| - 1];
      OfConcat(x, front, mod);
      OfLast(x + front, last, mod);
      OfLast(front, last, mod);
      Regroup(x, front, last);
      assert y == front + [last];
    }
  }

  lemma {:induction false} OfGroup(group: seq<Entry>, mod: Mod)
    requires HaveMod(group, mod)
    ensures Of(group, mod) == group
  {
    if group != [] {
      var front, last := group[..|group| - 1], group[|group| - 1];
      OfGroup(front, mod);
      assert group == front + [last];
    }
  }

  lemma {:induction false} OfOtherGroup(group: seq<Entry>, mod: Mod, other: Mod)
    requires HaveMod(group, mod) && other != mod
    ensures Of(group, other) == []
  {
    if group != [] { OfOtherGroup(group[..|group| - 1], mod, other); }
  }

  predicate HaveMods(groups: Groups) {
    |groups| <= MOD_COUNT && forall i: nat | i < |groups| :: HaveMod(groups[i], ModAt(i))
  }

  lemma {:induction false} OfJoined(groups: Groups, mod: Mod)
    requires HaveMods(groups)
    ensures Of(Joined(groups), mod) == if Rank(mod) < |groups| then groups[Rank(mod)] else []
  {
    hide HaveMod, ModAt;
    if groups != [] {
      var front, last := groups[..|groups| - 1], groups[|groups| - 1];
      OfJoined(front, mod);
      OfConcat(Joined(front), last, mod);
      if Rank(mod) == |front| {
        OfGroup(last, mod);
      } else {
        OfOtherGroup(last, ModAt(|front|), mod);
      }
    }
  }

  lemma SortedGroupHasMod(entries: seq<Entry>, mod: Mod)
    ensures HaveMod(SortedGroup(entries, mod), mod) && |SortedGroup(entries, mod)| == |Of(entries, mod)|
  {
    OfHasMod(entries, mod);
    SortingKeepsMod(Of(entries, mod), mod);
  }

  lemma OfSorted(entries: seq<Entry>, mod: Mod)
    requires !mod.OtherMod?
    ensures Of(Sorted(entries), mod) == SortedGroup(entries, mod)
  {
    hide HaveMod, ModAt, SortedGroup, Joined;
    forall i: nat | i < MOD_COUNT ensures HaveMod(SortedGroups(entries)[i], ModAt(i)) {
      SortedGroupHasMod(entries, ModAt(i));
    }
    OfJoined(SortedGroups(entries), mod);
  }

  // ----- normalization

  /** Indexes 1, 2, ... along a group. */
  function Numbered(group: seq<Entry>): (numbered: seq<Entry>)
    ensures |numbered| == |group|
    ensures forall i | 0 <= i < |group| :: numbered[i] == group[i].(index := i + 1)
  {
    seq(|group|, i requires 0 <= i < |group| => group[i].(index := i + 1))
  }

  function NumberedGroup(entries: seq<Entry>, mod: Mod): seq<Entry> { Numbered(SortedGroup(entries, mod)) }

  function NumberedGroups(entries: seq<Entry>): (groups: Groups)
    ensures |groups| == MOD_COUNT && forall i: nat | i < MOD_COUNT :: groups[i] == NumberedGroup(entries, ModAt(i))
  {
    seq(MOD_COUNT, i requires 0 <= i < MOD_COUNT => NumberedGroup(entries, ModAt(i)))
  }

  function Normalized(entries: seq<Entry>): seq<Entry> { Joined(NumberedGroups(entries)) }

  lemma NumberedGroupHasMod(entries: seq<Entry>, mod: Mod)
    ensures HaveMod(NumberedGroup(entries, mod), mod)
  {
    SortedGroupHasMod(entries, mod);
  }

  lemma OfNormalized(entries: seq<Entry>, mod: Mod)
    requires !mod.OtherMod?
    ensures Of(Normalized(entries), mod) == NumberedGroup(entries, mod)
  {
    hide HaveMod, ModAt, NumberedGroup, Joined;
    forall i: nat | i < MOD_COUNT ensures HaveMod(NumberedGroups(entries)[i], ModAt(i)) {
      NumberedGroupHasMod(entries, ModAt(i));
    }
    OfJoined(NumberedGroups(entries), mod);
  }

  lemma NormalizedGroupStays(entries: seq<Entry>, mod: Mod)
    requires !mod.OtherMod?
    ensures SortedGroup(Normalized(entries), mod) == NumberedGroup(entries, mod)
    ensures NumberedGroup(Normalized(entries), mod) == NumberedGroup(entries, mod)
  {
    OfNormalized(entries, mod);
    SortedStays(NumberedGroup(entries, mod));
    assert Numbered(NumberedGroup(entries, mod)) == NumberedGroup(entries, mod);
  }

  /** Normalizing twice is normalizing once, and sorting changes nothing any more. */
  lemma NormalizingIsIdempotent(entries: seq<Entry>)
    ensures Normalized(Normalized(entries)) == Normalized(entries) == Sorted(Normalized(entries))
  {
    hide ModAt, SortedGroup, NumberedGroup, Joined;
    var n := Normalized(entries);
    forall i: nat | i < MOD_COUNT
      ensures SortedGroups(n)[i] == NumberedGroups(entries)[i] == NumberedGroups(n)[i]
    {
      KnownAt(i);
      NormalizedGroupStays(entries, ModAt(i));
    }
    assert SortedGroups(n) == NumberedGroups(entries) == NumberedGroups(n);
  }

  lemma KnownAt(i: nat)
    requires i < MOD_COUNT
    ensures !ModAt(i).OtherMod?
  {}

  lemma {:induction false} NumberedJoined(x: Groups, y: Groups)
    requires |x| == |y| && forall i | 0 <= i < |x| :: y[i] == Numbered(x[i])
    ensures |Joined(x)| == |Joined(y)|
    ensures forall i | 0 <= i < |Joined(x)| :: Joined(y)[i] == Joined(x)[i].(index := Joined(y)[i].index)
  {
    if x != [] { NumberedJoined(x[..|x| - 1], y[..|y| - 1]); }
  }

  lemma {:induction false} PermutedJoined(x: Groups, y: Groups)
    requires |x| == |y| && forall i | 0 <= i < |x| :: multiset(x[i]) == multiset(y[i])
    ensures multiset(Joined(x)) == multiset(Joined(y))
  {
    if x != [] { PermutedJoined(x[..|x| - 1], y[..|y| - 1]); }
  }

  // One group has one more entry at its end.
  lemma {:induction false} AppendedJoined(x: Groups, r: nat, last: Entry)
    requires r < |x|
    ensures multiset(Joined(x[r := x[r] + [last]])) == multiset(Joined(x)) + multiset{last}
  {
    var y, n := x[r := x[r] + [last]], |x| - 1;
    if r == n {
      assert y[..n] == x[..n];
      assert Joined(y) == Joined(x[..n]) + (x[n] + [last]);
    } else {
      AppendedJoined(x[..n], r, last);
      assert y[..n] == x[..n][r := x[r] + [last]];
    }
  }

  lemma {:induction false} EmptyJoined(x: Groups)
    requires forall i | 0 <= i < |x| :: x[i] == []
    ensures Joined(x) == []
  {
    if x != [] { EmptyJoined(x[..|x| - 1]); }
  }

  lemma {:induction false} GroupsPartition(entries: seq<Entry>)
    requires forall i | 0 <= i < |entries| :: !entries[i].mod.OtherMod?
    ensures multiset(Joined(GroupsOf(entries))) == multiset(entries)
  {
    hide ModAt, Joined;
    if entries == [] {
      EmptyJoined(GroupsOf([]));
    } else {
      var front, last := entries[..|entries| - 1], entries[|entries| - 1];
      GroupsPartition(front);
      assert entries == front + [last];
      var x, r := GroupsOf(front), Rank(last.mod);
      AppendedJoined(x, r, last);
      var y := x[r := x[r] + [last]];
      forall i: nat | i < MOD_COUNT ensures GroupsOf(entries)[i] == y[i] { OfLast(front, last, ModAt(i)); }
      assert GroupsOf(entries) == y;
    }
  }

  /** Normalizing a validated mappool only reorders it and renumbers its indexes: it is the
      sorted permutation of the entries, in which SortingIsStable speaks of each group, with
      every index replaced. */
  lemma NormalizingRenumbersSorted(entries: seq<Entry>)
    requires forall i | 0 <= i < |entries| :: !entries[i].mod.OtherMod?
    ensures multiset(Sorted(entries)) == multiset(entries)
    ensures |Normalized(entries)| == |Sorted(entries)| == |entries|
    ensures forall i | 0 <= i < |entries| ::
              Normalized(entries)[i] == Sorted(entries)[i].(index := Normalized(entries)[i].index)
  {
    hide ModAt, SortByIndex, Of, Joined;
    NumberedJoined(SortedGroups(entries), NumberedGroups(entries));
    forall i: nat | i < MOD_COUNT ensures multiset(SortedGroups(entries)[i]) == multiset(GroupsOf(entries)[i]) {
      SortingIsStable(Of(entries, ModAt(i)), 0);
    }
    PermutedJoined(SortedGroups(entries), GroupsOf(entries));
    GroupsPartition(entries);
    assert |multiset(Sorted(entries))| == |Sorted(entries)| && |multiset(entries)| == |entries|;
  }

  // ----- the methods

  method Group(entries: seq<Entry>, mod: Mod) returns (group: array<Entry>)
    ensures fresh(group) && group[..] == Of(entries, mod)
  {
    var found: seq<Entry> := [];
    for i := 0 to |entries|
      invariant found == Of(entries[..i], mod)
    {
      OfLast(entries[..i], entries[i], mod);
      assert entries[..i + 1] == entries[..i] + [entries[i]];
      if entries[i].mod == mod { found := found + [entries[i]]; }
    }
    assert entries[..|entries|] == entries;
    group := new Entry[|found|](k requires 0 <= k < |found| => found[k]);
    assert group[..] == found;
  }

  /** SortedEntries (mappool.go 117-141): one group at a time, each sorted in place. */
  method SortedEntries(entries: seq<Entry>) returns (sorted: seq<Entry>)
    ensures sorted == Sorted(entries)
  {
    hide ModAt, SortByIndex, Of;
    sorted := [];
    ghost var groups := SortedGroups(entries);
    for k := 0 to MOD_COUNT
      invariant sorted == Joined(groups[..k])
    {
      var group := Group(entries, ModAt(k));
      InsertionSort(group);
      assert group[..] == groups[k];
      assert groups[..k + 1] == groups[..k] + [groups[k]] && groups[..k + 1][..k] == groups[..k];
      sorted := sorted + group[..];
    }
    assert groups[..MOD_COUNT] == groups;
  }

  /** Every entry numbered by its place among the earlier entries of its mod, for the mods
      below k in canonical order. */
  function Renumbered(sorted: seq<Entry>, k: nat): (renumbered: seq<Entry>)
    ensures |renumbered| == |sorted|
  {
    seq(|sorted|, i requires 0 <= i < |sorted| =>
      if Rank(sorted[i].mod) < k then sorted[i].(index := |Of(sorted[..i], sorted[i].mod)| + 1) else sorted[i])
  }

  lemma OfNothing(mod: Mod)
    ensures Of([], mod) == []
  {}

  /** The two loops of normalizeEntryIndexes: a counter for each mod, in place. */
  method Renumber(entries: array<Entry>)
    modifies entries
    ensures entries[..] == Renumbered(old(entries[..]), MOD_COUNT)
  {
    hide Of;
    ghost var was := entries[..];
    for k := 0 to MOD_COUNT
      invariant entries[..] == Renumbered(was, k)
    {
      var index := 1;
      OfNothing(ModAt(k));
      assert was[..0] == [];
      for i := 0 to entries.Length
        invariant index == |Of(was[..i], ModAt(k))| + 1
        invariant forall j | 0 <= j < i :: entries[j] == Renumbered(was, k + 1)[j]
        invariant forall j | i <= j < entries.Length :: entries[j] == Renumbered(was, k)[j]
      {
        assert was[..i + 1] == was[..i] + [was[i]];
        OfLast(was[..i], was[i], ModAt(k));
        assert entries[i] == Renumbered(was, k)[i];
        if entries[i].mod == ModAt(k) {
          entries[i] := entries[i].(index := index);
          index := index + 1;
        }
      }
    }
  }

  lemma {:induction false} RenumberingNumbersGroups(groups: Groups, i: nat)
    requires HaveMods(groups) && i < |Joined(groups)|
    ensures var sorted, numbered := Joined(groups), Joined(AllNumbered(groups));
            |numbered| == |sorted| && sorted[i].mod == numbered[i].mod && !sorted[i].mod.OtherMod?
            && numbered[i] == sorted[i].(index := |Of(sorted[..i], sorted[i].mod)| + 1)
  {
    hide ModAt, Of;
    var front, last := groups[..|groups| - 1], groups[|groups| - 1];
    assert groups == front + [last];
    assert AllNumbered(groups)[..|front|] == AllNumbered(front);
    NumberedJoined(front, AllNumbered(front));
    if i < |Joined(front)| {
      RenumberingNumbersGroups(front, i);
      assert Joined(groups)[..i] == Joined(front)[..i];
    } else {
      LastGroupIsNumbered(front, last, i - |Joined(front)|);
    }
  }

  lemma LastGroupIsNumbered(front: Groups, last: seq<Entry>, at: nat)
    requires HaveMods(front + [last]) && at < |last|
    ensures var all := Joined(front) + last;
            && !last[at].mod.OtherMod? && all[|Joined(front)| + at] == last[at]
            && |Of(all[..|Joined(front)| + at], last[at].mod)| == at
  {
    hide ModAt, Of, Joined;
    var mod := ModAt(|front|);
    KnownAt(|front|);
    var all := Joined(front) + last;
    assert (front + [last])[|front|] == last && HaveMod(last, mod);
    assert HaveMods(front);
    assert all[..|Joined(front)| + at] == Joined(front) + last[..at];
    OfConcat(Joined(front), last[..at], mod);
    OfJoined(front, mod);
    OfGroup(last[..at], mod);
  }

  function AllNumbered(groups: Groups): (numbered: Groups)
    ensures |numbered| == |groups| && forall i | 0 <= i < |groups| :: numbered[i] == Numbered(groups[i])
  {
    seq(|groups|, i requires 0 <= i < |groups| => Numbered(groups[i]))
  }

  lemma RenumberedIsNormalized(entries: seq<Entry>)
    ensures Renumbered(Sorted(entries), MOD_COUNT) == Normalized(entries)
  {
    hide Joined, SortedGroup, ModAt, HaveMod, Of;
    var groups := SortedGroups(entries);
    forall i: nat | i < MOD_COUNT ensures HaveMod(groups[i], ModAt(i)) { SortedGroupHasMod(entries, ModAt(i)); }
    assert AllNumbered(groups) == NumberedGroups(entries);
    NumberedJoined(groups, AllNumbered(groups));
    forall i: nat | i < |Sorted(entries)| ensures Renumbered(Sorted(entries), MOD_COUNT)[i] == Normalized(entries)[i] {
      RenumberingNumbersGroups(groups, i);
    }
  }

  /** normalizeEntryIndexes replaces the mappool's entries by their normal form. */
  method NormalizeEntryIndexes(entries: seq<Entry>) returns (normalized: seq<Entry>)
    ensures normalized == Normalized(entries)
  {
    var sorted := SortedEntries(entries);
    var work := new Entry[|sorted|](k requires 0 <= k < |sorted| => sorted[k]);
    assert work[..] == sorted;
    Renumber(work);
    RenumberedIsNormalized(entries);
    normalized := work[..];
  }
}
