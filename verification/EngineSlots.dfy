/** From a mappool to the engine's pool slots and back to beatmaps (internal/domain/
    mappool.go 45-56, internal/domain/pool.go 31-37, internal/service/
    formal_match_factory.go 94-152, internal/service/formal_match_read.go 112-127). */
module EngineSlots {
  import opened MatchModel
  import opened PoolSlots
  import opened Mappool

  /** Beatmaps by mod, in slot order; a mod without entries has no group. */
  type RuntimePool = map<Mod, seq<Option<int>>>

  function GroupIn(pool: RuntimePool, mod: Mod): seq<Option<int>> { if mod in pool then pool[mod] else [] }

  function Runtime(sorted: seq<Entry>): RuntimePool {
    if sorted == [] then map[]
    else
      var pool, last := Runtime(sorted[..|sorted| - 1]), sorted[|sorted| - 1];
      pool[last.mod := GroupIn(pool, last.mod) + [last.beatmap]]
  }

  method ToRuntime(entries: seq<Entry>) returns (pool: RuntimePool)
    ensures pool == Runtime(Sorted(entries))
  {
    var sorted := SortedEntries(entries);
    pool := map[];
    for i := 0 to |sorted|
      invariant pool == Runtime(sorted[..i])
    {
      assert sorted[..i + 1][..i] == sorted[..i];
      pool := pool[sorted[i].mod := GroupIn(pool, sorted[i].mod) + [sorted[i].beatmap]];
    }
    assert sorted[..|sorted|] == sorted;
  }

  function Beatmaps(group: seq<Entry>): (beatmaps: seq<Option<int>>)
    ensures |beatmaps| == |group| && forall i | 0 <= i < |group| :: beatmaps[i] == group[i].beatmap
  {
    seq(|group|, i requires 0 <= i < |group| => group[i].beatmap)
  }

  lemma {:induction false} RuntimeGroups(sorted: seq<Entry>, mod: Mod)
    ensures GroupIn(Runtime(sorted), mod) == Beatmaps(Of(sorted, mod))
  {
    if sorted != [] {
      var front, last := sorted[..|sorted| - 1], sorted[|sorted| - 1];
      RuntimeGroups(front, mod);
      assert sorted == front + [last];
      OfLast(front, last, mod);
    }
  }

  /** FindSlot: the piece at a 1-based index of the mod's group, if there is one. */
  function FindSlot(pool: RuntimePool, slot: PoolSlot): Option<Option<int>> {
    if slot.mod !in pool || slot.index < 1 || slot.index > |pool[slot.mod]| then None
    else Some(pool[slot.mod][slot.index - 1])
  }

  /** The beatmap formalMatch shows for an engine slot. */
  function BeatmapOf(pool: RuntimePool, id: Id): Option<int> {
    var slot := Parse(id);
    if slot.None? then None
    else
      var piece := FindSlot(pool, slot.value);
      if piece.None? || piece.value.None? || piece.value.value <= 0 then None else piece.value
  }

  /** The pool part of formalMatch: one entry per slot of the state. */
  method FormalPool(pool: RuntimePool, slots: Pool) returns (shown: map<Id, Option<int>>)
    ensures shown == map id | id in slots :: BeatmapOf(pool, id)
  {
    shown := map[];
    var todo := slots.Keys;
    while todo != {}
      invariant todo <= slots.Keys
      invariant shown == map id | id in slots && id !in todo :: BeatmapOf(pool, id)
    {
      var id :| id in todo;
      todo := todo - {id};
      var slot := ParsePoolSlot(id);
      if slot.None? {
        shown := shown[id := None];
        continue;
      }
      var piece := FindSlot(pool, slot.value);
      if piece.None? || piece.value.None? || piece.value.value <= 0 {
        shown := shown[id := None];
        continue;
      }
      shown := shown[id := piece.value];
    }
  }

  // ----- the engine's slots

  // A configured slot has no state yet.
  function Configured(id: Id, mod: Mod): Slot { Slot(id, mod, OtherSlotState) }

  function ModSlots(mod: Mod, count: nat): (slots: seq<PoolSlot>)
    ensures |slots| == count && forall i: nat | i < count :: slots[i] == PoolSlot(mod, i + 1)
  {
    seq(count, i requires 0 <= i < count => PoolSlot(mod, i + 1))
  }

  /** The playable slots of the first k mods; Shiro and TB are added by the factory. */
  function PlaySlots(pool: RuntimePool, k: nat): seq<PoolSlot> {
    if k == 0 then [] else PlaySlots(pool, k - 1) + ModSlots(ModAt(k - 1), |GroupIn(pool, ModAt(k - 1))|)
  }

  function EngineSlot(slot: PoolSlot): Slot { Configured(SlotText(slot), slot.mod) }

  function Texts(slots: seq<PoolSlot>): (configured: seq<Slot>)
    ensures |configured| == |slots| && forall i | 0 <= i < |slots| :: configured[i] == EngineSlot(slots[i])
  {
    seq(|slots|, i requires 0 <= i < |slots| => EngineSlot(slots[i]))
  }

  const PLAY_MODS := 5

  /** The id of the first TB entry, or the synthetic one. */
  function TBId(sorted: seq<Entry>): Id {
    if sorted == [] then "TB"
    else if sorted[0].mod == TB then SlotText(PoolSlot(TB, sorted[0].index))
    else TBId(sorted[1..])
  }

  function SlotsFor(mappool: Option<seq<Entry>>): seq<Slot> {
    if mappool.None? then [Configured("SHIRO", Shiro), Configured("TB", TB)]
    else
      Texts(PlaySlots(Runtime(Sorted(mappool.value)), PLAY_MODS))
      + [Configured("SHIRO", Shiro), Configured(TBId(Sorted(mappool.value)), TB)]
  }

  method AppendModSlots(slots: seq<Slot>, mod: Mod, count: nat) returns (more: seq<Slot>)
    requires count <= MAX_INT
    ensures more == slots + Texts(ModSlots(mod, count))
  {
    hide Itoa;
    more := slots;
    for index := 0 to count
      invariant more == slots + Texts(ModSlots(mod, index))
    {
      var number := PrintInt(index + 1);
      more := more + [Configured(ModText(mod) + "-" + number, mod)];
    }
  }

  lemma TBIdFrom(sorted: seq<Entry>, i: nat)
    requires i <= |sorted|
    ensures TBId(sorted[i..]) ==
              if i == |sorted| then "TB" else if sorted[i].mod == TB then "TB-" + Itoa(sorted[i].index) else TBId(sorted[i + 1..])
  {
    hide Itoa;
    if i < |sorted| { assert sorted[i..][1..] == sorted[i + 1..] && ModText(TB) + "-" == "TB-"; }
  }

  method FirstTBId(sorted: seq<Entry>) returns (id: Id)
    requires forall e | e in sorted :: MIN_INT <= e.index <= MAX_INT
    ensures id == TBId(sorted)
  {
    hide TBId, Itoa;
    var i := 0;
    assert sorted[0..] == sorted;
    while i < |sorted| && sorted[i].mod != TB
      invariant 0 <= i <= |sorted| && TBId(sorted) == TBId(sorted[i..])
    {
      TBIdFrom(sorted, i);
      i := i + 1;
    }
    TBIdFrom(sorted, i);
    if i == |sorted| { return "TB"; }
    var number := PrintInt(sorted[i].index);
    return "TB-" + number;
  }

  /** The pool part of engineConfigurationFromEntities. Indexes are 64-bit in the source. */
  method EngineConfigurationSlots(mappool: Option<seq<Entry>>) returns (slots: seq<Slot>)
    requires mappool.Some? ==> |mappool.value| <= MAX_INT
    requires mappool.Some? ==> forall e | e in mappool.value :: MIN_INT <= e.index <= MAX_INT
    ensures slots == SlotsFor(mappool)
  {
    hide Sorted, Runtime, GroupIn, TBId;
    slots := [];
    if mappool.None? { return [Configured("SHIRO", Shiro), Configured("TB", TB)]; }
    var pool := ToRuntime(mappool.value);
    for k := 0 to PLAY_MODS
      invariant slots == Texts(PlaySlots(pool, k))
    {
      GroupsAreSmall(mappool.value, ModAt(k));
      slots := AppendModSlots(slots, ModAt(k), |GroupIn(pool, ModAt(k))|);
      assert PlaySlots(pool, k + 1) == PlaySlots(pool, k) + ModSlots(ModAt(k), |GroupIn(pool, ModAt(k))|);
    }
    var sorted := SortedEntries(mappool.value);
    forall e | e in sorted ensures e in mappool.value { SortedEntriesAreEntries(mappool.value, e); }
    var tb := FirstTBId(sorted);
    slots := slots + [Configured("SHIRO", Shiro), Configured(tb, TB)];
  }

  lemma {:induction false} OfIsShort(entries: seq<Entry>, mod: Mod)
    ensures |Of(entries, mod)| <= |entries|
  {
    if entries != [] { OfIsShort(entries[..|entries| - 1], mod); }
  }

  lemma GroupsAreSmall(entries: seq<Entry>, mod: Mod)
    requires !mod.OtherMod?
    ensures |GroupIn(Runtime(Sorted(entries)), mod)| <= |entries|
  {
    RuntimeGroups(Sorted(entries), mod);
    OfSorted(entries, mod);
    SortedGroupHasMod(entries, mod);
    OfIsShort(entries, mod);
  }

  lemma {:induction false} OfComesFrom(entries: seq<Entry>, mod: Mod, e: Entry)
    ensures e in Of(entries, mod) <==> e in entries && e.mod == mod
  {
    if entries != [] {
      var front, last := entries[..|entries| - 1], entries[|entries| - 1];
      OfComesFrom(front, mod, e);
      assert entries == front + [last];
    }
  }

  lemma {:induction false} JoinedComesFrom(groups: Groups, e: Entry)
    requires e in Joined(groups)
    ensures exists i :: 0 <= i < |groups| && e in groups[i]
  {
    var front, last := groups[..|groups| - 1], groups[|groups| - 1];
    if e !in last {
      JoinedComesFrom(front, e);
      var i :| 0 <= i < |front| && e in front[i];
      assert e in groups[i];
    }
  }

  lemma SortedEntriesAreEntries(entries: seq<Entry>, e: Entry)
    requires e in Sorted(entries)
    ensures e in entries
  {
    hide ModAt;
    JoinedComesFrom(SortedGroups(entries), e);
    var i: nat :| i < MOD_COUNT && e in SortedGroups(entries)[i];
    SortingIsStable(Of(entries, ModAt(i)), 0);
    assert e in multiset(SortedGroup(entries, ModAt(i)));
    OfComesFrom(entries, ModAt(i), e);
  }

  // ----- what normalization buys

  /** In a normalized mappool an entry sits in its group at its own index. */
  lemma EntryAtItsIndex(entries: seq<Entry>, e: Entry)
    requires e in Normalized(entries) && !e.mod.OtherMod?
    ensures var group := Of(Normalized(entries), e.mod); 1 <= e.index <= |group| && group[e.index - 1] == e
  {
    hide Of, SortByIndex;
    OfComesFrom(Normalized(entries), e.mod, e);
    OfNormalized(entries, e.mod);
    var i :| 0 <= i < |NumberedGroup(entries, e.mod)| && NumberedGroup(entries, e.mod)[i] == e;
  }

  lemma NormalizedBeatmaps(entries: seq<Entry>, e: Entry)
    requires ValidEntries(entries) && e in Normalized(entries)
    ensures !e.mod.OtherMod? && BeatmapFits(e)
  {
    hide Normalized, Sorted, DistinctSlots, HasTB;
    NormalizingRenumbersSorted(entries);
    var i :| 0 <= i < |entries| && Normalized(entries)[i] == e;
    assert Sorted(entries)[i] in multiset(Sorted(entries));
    assert Sorted(entries)[i] in entries;
  }

  /** Printing, parsing and looking up lead every playable and TB entry's slot back to that
      entry's own beatmap. */
  lemma SlotsLeadBack(entries: seq<Entry>, e: Entry)
    requires ValidEntries(entries) && |entries| <= MAX_INT && e in Normalized(entries) && e.mod != Shiro
    ensures BeatmapOf(Runtime(Sorted(Normalized(entries))), SlotText(PoolSlot(e.mod, e.index))) == e.beatmap
  {
    hide ValidEntries, Normalized, Sorted, Runtime, Parse, Of;
    var n := Normalized(entries);
    NormalizedBeatmaps(entries, e);
    EntryAtItsIndex(entries, e);
    NormalizingIsIdempotent(entries);
    NormalizedIsShort(entries, e.mod);
    RuntimeGroups(n, e.mod);
    ParseUndoesPrint(PoolSlot(e.mod, e.index));
  }

  lemma NormalizedIsShort(entries: seq<Entry>, mod: Mod)
    requires ValidEntries(entries)
    ensures |Of(Normalized(entries), mod)| <= |entries|
  {
    hide Normalized, Sorted, Of, DistinctSlots, HasTB;
    NormalizingRenumbersSorted(entries);
    OfIsShort(Normalized(entries), mod);
  }

  lemma {:induction false} PlaySlotsCover(pool: RuntimePool, k: nat, slot: PoolSlot)
    requires k <= MOD_COUNT
    ensures slot in PlaySlots(pool, k) <==> Rank(slot.mod) < k && 1 <= slot.index <= |GroupIn(pool, slot.mod)|
  {
    hide ModAt, GroupIn;
    if k > 0 {
      PlaySlotsCover(pool, k - 1, slot);
      var more := ModSlots(ModAt(k - 1), |GroupIn(pool, ModAt(k - 1))|);
      if slot.mod == ModAt(k - 1) && 1 <= slot.index <= |more| { assert more[slot.index - 1] == slot; }
    }
  }

  /** The playable slots of a normalized mappool are its entries', one each. */
  lemma SlotsAreEntries(entries: seq<Entry>, slot: PoolSlot)
    requires Rank(slot.mod) < PLAY_MODS
    ensures var n := Normalized(entries);
            slot in PlaySlots(Runtime(Sorted(n)), PLAY_MODS) <==> exists e :: e in n && SlotOf(e) == slot
  {
    hide Normalized, Sorted, Runtime, PlaySlots, ModAt, Of;
    var n := Normalized(entries);
    NormalizingIsIdempotent(entries);
    PlaySlotsCover(Runtime(n), PLAY_MODS, slot);
    RuntimeGroups(n, slot.mod);
    if 1 <= slot.index <= |Of(n, slot.mod)| {
      OfNormalized(entries, slot.mod);
      var e := Of(n, slot.mod)[slot.index - 1];
      SortedGroupHasMod(entries, slot.mod);
      OfComesFrom(n, slot.mod, e);
    }
    if e :| e in n && SlotOf(e) == slot { EntryAtItsIndex(entries, e); }
  }

  predicate Played(mod: Mod) { mod in {NM, HD, HR, DT, FM} }

  /** The engine knows each beatmap under the slot and the mod of its entry, and no other: every
      NM to FM entry of a normalized mappool has a configured slot with its text and its mod, and
      every configured slot of these mods is of such an entry. */
  lemma EngineSlotsAreEntries(entries: seq<Entry>)
    requires ValidEntries(entries) && |entries| <= MAX_INT
    ensures forall e | e in Normalized(entries) && Played(e.mod) ::
              exists slot :: slot in SlotsFor(Some(Normalized(entries)))
                && slot.id == SlotText(PoolSlot(e.mod, e.index)) && slot.mod == e.mod
    ensures forall slot | slot in SlotsFor(Some(Normalized(entries))) && Played(slot.mod) ::
              exists e :: e in Normalized(entries) && e.mod == slot.mod && Parse(slot.id) == Some(PoolSlot(e.mod, e.index))
    ensures exists slot :: slot in SlotsFor(Some(Normalized(entries))) && slot.id == "SHIRO" && slot.mod == Shiro
    ensures exists slot :: slot in SlotsFor(Some(Normalized(entries))) && Parse(slot.id) == Some(PoolSlot(TB, 1)) && slot.mod == TB
  {
    hide ValidEntries, Normalized, Sorted, Runtime, Parse, SlotText, TBId, PlaySlots, ModAt;
    var n := Normalized(entries);
    var play := PlaySlots(Runtime(Sorted(n)), PLAY_MODS);
    forall mod | Played(mod) ensures Rank(mod) < PLAY_MODS {}
    NormalizedHasTB(entries);
    ParseUndoesPrint(PoolSlot(TB, 1));
    assert SlotsFor(Some(n))[|play|] == Configured("SHIRO", Shiro);
    assert SlotsFor(Some(n))[|play| + 1] == Configured(TBId(Sorted(n)), TB);
    forall e | e in n && Played(e.mod)
      ensures exists slot :: slot in SlotsFor(Some(n)) && slot.id == SlotText(PoolSlot(e.mod, e.index)) && slot.mod == e.mod
    {
      SlotsAreEntries(entries, SlotOf(e));
      var k :| 0 <= k < |play| && play[k] == SlotOf(e);
      assert SlotsFor(Some(n))[k] == EngineSlot(play[k]);
      assert SlotsFor(Some(n))[k] in SlotsFor(Some(n));
    }
    forall slot | slot in SlotsFor(Some(n)) && Played(slot.mod)
      ensures exists e :: e in n && e.mod == slot.mod && Parse(slot.id) == Some(PoolSlot(e.mod, e.index))
    {
      var k :| 0 <= k < |play| && EngineSlot(play[k]) == slot;
      assert play[k] in play;
      SlotsAreEntries(entries, play[k]);
      var e :| e in n && SlotOf(e) == play[k];
      EntryFits(entries, e);
      ParseUndoesPrint(play[k]);
    }
  }

  lemma EntryFits(entries: seq<Entry>, e: Entry)
    requires ValidEntries(entries) && |entries| <= MAX_INT && e in Normalized(entries)
    ensures PoolSlots.ValidSlot(SlotOf(e))
  {
    hide ValidEntries, Normalized, Of;
    NormalizedBeatmaps(entries, e);
    EntryAtItsIndex(entries, e);
    NormalizedIsShort(entries, e.mod);
  }

  /** The factory's SHIRO slot shows no beatmap, whatever the mappool holds. */
  lemma ShiroShowsNothing(pool: RuntimePool)
    ensures BeatmapOf(pool, "SHIRO") == None
  {
    SyntheticShiroDoesNotParse();
  }

  // ----- the engine accepts the slots

  predicate Playable(slots: seq<PoolSlot>, k: nat) {
    && (forall i | 0 <= i < |slots| :: Rank(slots[i].mod) < k && 1 <= slots[i].index <= MAX_INT)
    && (forall i, j | 0 <= i < j < |slots| :: slots[i] != slots[j])
  }

  lemma {:induction false} PlaySlotsAreDistinct(pool: RuntimePool, k: nat)
    requires k <= MOD_COUNT && forall i: nat | i < k :: |GroupIn(pool, ModAt(i))| <= MAX_INT
    ensures Playable(PlaySlots(pool, k), k)
  {
    hide ModAt;
    if k > 0 {
      PlaySlotsAreDistinct(pool, k - 1);
      var before, more := PlaySlots(pool, k - 1), ModSlots(ModAt(k - 1), |GroupIn(pool, ModAt(k - 1))|);
      forall i, j | 0 <= i < |before| && 0 <= j < |more| ensures before[i] != more[j] {}
    }
  }

  lemma TextsAreDistinct(slots: seq<PoolSlot>, i: nat, j: nat)
    requires Playable(slots, PLAY_MODS) && i < j < |slots|
    ensures SlotText(slots[i]) != SlotText(slots[j])
  {
    hide Parse, SlotText;
    ParseUndoesPrint(slots[i]);
    ParseUndoesPrint(slots[j]);
  }

  lemma {:induction false} CountAppended(slots: seq<Slot>, slot: Slot, mod: Mod)
    ensures CountMod(slots + [slot], mod) == CountMod(slots, mod) + if slot.mod == mod then 1 else 0
  {}

  lemma {:induction false} NoneCounted(slots: seq<Slot>, mod: Mod)
    requires forall i | 0 <= i < |slots| :: slots[i].mod != mod
    ensures CountMod(slots, mod) == 0
  {
    if slots != [] { NoneCounted(slots[..|slots| - 1], mod); }
  }

  lemma {:induction false} FirstTB(sorted: seq<Entry>)
    ensures TBId(sorted) == if Of(sorted, TB) == [] then "TB" else SlotText(PoolSlot(TB, Of(sorted, TB)[0].index))
  {
    if sorted != [] {
      assert sorted == [sorted[0]] + sorted[1..];
      OfConcat([sorted[0]], sorted[1..], TB);
      assert [sorted[0]][..0] == [];
      FirstTB(sorted[1..]);
    }
  }

  lemma NormalizedHasTB(entries: seq<Entry>)
    requires ValidEntries(entries)
    ensures TBId(Sorted(Normalized(entries))) == SlotText(PoolSlot(TB, 1))
  {
    hide Normalized, Sorted, Of, SlotText, SortByIndex, TBId;
    NormalizingIsIdempotent(entries);
    FirstTB(Normalized(entries));
    OfNormalized(entries, TB);
    SortedGroupHasMod(entries, TB);
    var i :| 0 <= i < |entries| && entries[i].mod == TB;
    OfComesFrom(entries, TB, entries[i]);
  }

  /** A list of playable texts with one SHIRO and one TB slot is what NewReadyState accepts. */
  lemma CompletedListIsValid(play: seq<PoolSlot>, tb: Id)
    requires Playable(play, PLAY_MODS) && Parse(tb) == Some(PoolSlot(TB, 1))
    ensures ValidSlotList(Texts(play) + [Configured("SHIRO", Shiro), Configured(tb, TB)])
  {
    hide Parse, SlotText;
    var texts := Texts(play);
    var slots := texts + [Configured("SHIRO", Shiro)] + [Configured(tb, TB)];
    assert slots == texts + [Configured("SHIRO", Shiro), Configured(tb, TB)];
    forall mod ensures CountMod(slots, mod) == CountMod(texts, mod) + (if mod == Shiro || mod == TB then 1 else 0) {
      CountAppended(texts, Configured("SHIRO", Shiro), mod);
      CountAppended(texts + [Configured("SHIRO", Shiro)], Configured(tb, TB), mod);
    }
    NoneCounted(texts, Shiro);
    NoneCounted(texts, TB);
    SyntheticShiroDoesNotParse();
    EmptyDoesNotParse();
    TextsParse(play);
    forall i, j | 0 <= i < j < |slots| ensures slots[i].id != slots[j].id {
      if j < |play| { TextsAreDistinct(play, i, j); } else if i < |play| { assert Parse(slots[i].id) == Some(play[i]); }
    }
  }

  lemma TextsParse(play: seq<PoolSlot>)
    requires Playable(play, PLAY_MODS)
    ensures forall i | 0 <= i < |play| :: Parse(Texts(play)[i].id) == Some(play[i])
  {
    hide Parse, SlotText;
    forall i | 0 <= i < |play| ensures Parse(Texts(play)[i].id) == Some(play[i]) { ParseUndoesPrint(play[i]); }
  }

  lemma EmptyDoesNotParse()
    ensures Parse("") == None
  {}

  /** Whatever mappool passes validation, after normalization its engine slots are distinct,
      with exactly one Shiro and one TB: the engine accepts them. */
  lemma EngineAcceptsSlots(entries: seq<Entry>)
    requires ValidEntries(entries) && |entries| <= MAX_INT
    ensures ValidSlotList(SlotsFor(Some(Normalized(entries))))
  {
    hide ValidEntries, Normalized, Sorted, Runtime, Parse, SlotText, TBId, PlaySlots, ModAt;
    var n := Normalized(entries);
    var pool := Runtime(Sorted(n));
    NormalizingIsIdempotent(entries);
    forall i: nat | i < PLAY_MODS ensures |GroupIn(pool, ModAt(i))| <= MAX_INT {
      RuntimeGroups(n, ModAt(i));
      NormalizedIsShort(entries, ModAt(i));
    }
    PlaySlotsAreDistinct(pool, PLAY_MODS);
    NormalizedHasTB(entries);
    ParseUndoesPrint(PoolSlot(TB, 1));
    CompletedListIsValid(PlaySlots(pool, PLAY_MODS), TBId(Sorted(n)));
  }
}
