/** The command store as an object: one Apply call from beginning to end, writing its four
    collections in turn and undoing them when a later write fails (internal/persistence/
    command_store.go 482-724, snapshot_store.go 276-343). It is proved equal to running the
    steps of CommandProtocol without interruption. */
module CommandStores {
  import opened MatchModel
  import opened Rules
  import opened Validation
  import opened CommandDocuments
  import opened MatchAggregate
  import opened Recovery
  import P = CommandProtocol
  import C = Conservation
  import E = Effects
  import G = GateExactness
  import R = Runs

  /** What an uninterrupted Apply answers, and what it leaves behind. An absent actor stands
      for a failed authorization. */
  ghost function AtOnce(store: P.Store, env: Envelope, actor: Option<Actor>): (P.Store, P.Answer) {
    var found := FindReceipt(P.Receipts(store, env.matchId), env.commandId);
    if found.Some? then (store, P.ReplayOf(found.value, env))
    else if actor.None? || env.matchId !in store || !P.Decodes(store[env.matchId].snapshot) then (store, P.Refused)
    else
      var d := store[env.matchId];
      var current := d.snapshot.state;
      if current.version != env.expectedVersion then (store, P.VersionConflict(current.version))
      else
        var t := Execute(current, actor.value, env.command, env.occurredAt);
        if t.None? || t.value.state.version != current.version + 1 then (store, P.Refused)
        else
          var last := LastSequence(d.outbox);
          if Commits(d, env, actor.value, current, t.value, last) then
            (store[env.matchId := Written(d, env, actor.value, current, t.value, last)],
             P.Applied(NewReceipt(env, actor.value, current, t.value, last)))
          else (store, P.Refused)
  }

  // ----- an uninterrupted Apply is a run of the protocol

  lemma Moves(b: P.Behaviour, who: nat, after: P.Client, store: P.Store) returns (b': P.Behaviour)
    requires P.Possible(b) && who in b.world.clients && P.ClientStep(b.world.store, b.world.clients[who], store, after)
    ensures P.Possible(b') && P.Later(b, b') && b'.world == P.World(store, b.world.clients[who := after])
  {
    hide P.ClientStep, P.Possible;
    b' := P.Extend(b, P.ClientMoves(who, after), P.World(store, b.world.clients[who := after]));
    PossibleExtends(b');
  }

  lemma PossibleExtends(b: P.Behaviour)
    requires b.Extend? && P.Possible(b.before) && P.Next(b.before.world, b.world, b.move)
    ensures P.Possible(b)
  {
    hide P.Next;
  }

  lemma {:induction false} LaterChains(x: P.Behaviour, y: P.Behaviour, z: P.Behaviour)
    requires P.Later(x, y) && P.Later(y, z)
    ensures P.Later(x, z)
  {
    if z != y { LaterChains(x, y, z.before); }
  }

  /** Whatever AtOnce answers, the step-by-step client can answer with the same documents. */
  lemma AtOnceIsARun(b: P.Behaviour, who: nat, env: Envelope, actor: Option<Actor>) returns (b': P.Behaviour)
    requires P.Possible(b) && who in b.world.clients && b.world.clients[who] == P.Looking(env)
    ensures P.Possible(b') && P.Later(b, b') && who in b'.world.clients
    ensures b'.world.store == AtOnce(b.world.store, env, actor).0
    ensures b'.world.clients[who] == P.Answered(env, AtOnce(b.world.store, env, actor).1)
  {
    hide P.Possible, P.Next, P.Decodes, Execute, Commits, Written, NewReceipt;
    var store, answered := b.world.store, P.Answered(env, AtOnce(b.world.store, env, actor).1);
    var found := FindReceipt(P.Receipts(store, env.matchId), env.commandId);
    if found.Some? || actor.None? {
      b' := Moves(b, who, answered, store);
      return;
    }
    var b1 := Moves(b, who, P.Authorized(env, actor.value), store);
    if AtOnce(store, env, actor).0 == store && !AtOnce(store, env, actor).1.Applied? && !Reaches(store, env, actor.value) {
      b' := Moves(b1, who, answered, store);
      LaterChains(b, b1, b');
      return;
    }
    b' := Commit(b1, who, env, actor.value);
    LaterChains(b, b1, b');
  }

  /** Apply gets as far as preparing its writes. */
  ghost predicate Reaches(store: P.Store, env: Envelope, actor: Actor) {
    && env.matchId in store && P.Decodes(store[env.matchId].snapshot)
    && store[env.matchId].snapshot.state.version == env.expectedVersion
    && var t := Execute(store[env.matchId].snapshot.state, actor, env.command, env.occurredAt);
       t.Some? && t.value.state.version == env.expectedVersion + 1
  }

  lemma Commit(b: P.Behaviour, who: nat, env: Envelope, actor: Actor) returns (b': P.Behaviour)
    requires P.Possible(b) && who in b.world.clients && b.world.clients[who] == P.Authorized(env, actor)
    requires FindReceipt(P.Receipts(b.world.store, env.matchId), env.commandId).None?
    requires Reaches(b.world.store, env, actor)
    ensures P.Possible(b') && P.Later(b, b') && who in b'.world.clients
    ensures b'.world.store == AtOnce(b.world.store, env, Some(actor)).0
    ensures b'.world.clients[who] == P.Answered(env, AtOnce(b.world.store, env, Some(actor)).1)
  {
    hide P.Possible, P.Next, P.Decodes, Execute, Commits, Written, NewReceipt;
    var store := b.world.store;
    var d := store[env.matchId];
    var t := Execute(d.snapshot.state, actor, env.command, env.occurredAt).value;
    var last := LastSequence(d.outbox);
    var b1 := Moves(b, who, P.Loaded(env, actor, d.snapshot.state, t), store);
    var b2 := Moves(b1, who, P.Prepared(env, actor, d.snapshot.state, t, last), store);
    var b3 := Moves(b2, who, P.Answered(env, AtOnce(store, env, Some(actor)).1), AtOnce(store, env, Some(actor)).0);
    LaterChains(b, b1, b2);
    LaterChains(b, b2, b3);
    b' := b3;
  }

  // ----- exactly when a command commits

  lemma ProjectionStays(s: State, s': State)
    requires C.Keeps(s, s')
    ensures ProjectionOf(s') == ProjectionOf(s)
  {}

  lemma AcceptedKeepsProjection(s: State, actor: Actor, command: Command, now: Time)
    requires ValidateState(s) && Execute(s, actor, command, now).Some?
    ensures ProjectionOf(Execute(s, actor, command, now).value.state) == ProjectionOf(s)
  {
    hide ValidateState, Execute, ProjectionOf, C.Keeps, E.NetEffect;
    var s' := Execute(s, actor, command, now).value.state;
    E.ExecuteShows(s, actor, command, now);
    C.StepKeeps(s, s', command);
    ProjectionStays(s, s');
  }

  // With consistent documents only a repeated command id could break a unique index.
  lemma NewIdsInsert(d: MatchDocuments, r: Receipt, kinds: seq<EventType>)
    requires Consistent(d) && !HasReceipt(d.receipts, r.commandId) && r.resultingVersion == |d.receipts| + 1
    requires r.events == Numbered(kinds, |d.outbox|, r.resultingVersion, r.createdAt)
    ensures Inserts(d, r)
  {
    hide Folded, R.Committed, Execute, AllEvents, Events;
    forall i: nat | i < |d.receipts|
      ensures d.receipts[i].commandId != r.commandId && d.receipts[i].resultingVersion == i + 1
      ensures d.actions[i].commandId == d.receipts[i].commandId && d.actions[i].resultingVersion == i + 1
    {
      assert ReceiptFits(d, i) && ActionFits(d.actions[i], d.receipts[i]);
    }
  }

  /** The guards a client can check before it calls: a command that is new and whose expected
      version is the match's commits exactly when the engine accepts it, the step is none of
      the gate's exceptions, and the clock has not gone back. */
  lemma CommitsExactlyWhen(d: MatchDocuments, env: Envelope, actor: Actor)
    requires Consistent(d) && !HasReceipt(d.receipts, env.commandId) && env.expectedVersion == |d.receipts|
    ensures var s := d.snapshot.state;
            var t := Execute(s, actor, env.command, env.occurredAt);
            t.Some? ==>
              (Commits(d, env, actor, s, t.value, LastSequence(d.outbox))
               <==> env.occurredAt != 0 && d.snapshot.updatedAt <= env.occurredAt && !G.Breaks(s, env.command))
  {
    hide Consistent, Execute, ValidateState, ProjectionOf, G.Breaks, Folded;
    var s := d.snapshot.state;
    var t := Execute(s, actor, env.command, env.occurredAt);
    P.SnapshotOfConsistent(d);
    if t.Some? {
      G.VersionOnlyGrows(s, actor, env.command, env.occurredAt);
      AcceptedKeepsProjection(s, actor, env.command, env.occurredAt);
      if env.occurredAt != 0 { G.GateIsExact(s, actor, env.command, env.occurredAt); }
      NewIdsInsert(d, NewReceipt(env, actor, s, t.value, |d.outbox|), t.value.events);
    }
  }

  // ----- what a call answers, and what it writes

  /** The documents of a commit, each next to the others. */
  ghost predicate CommittedBy(d: MatchDocuments, d': MatchDocuments, env: Envelope, actor: Actor, t: Transition, r: Receipt) {
    var version := |d.receipts| + 1;
    && r.commandId == env.commandId && r.command == env.command && r.actor == actor && r.state == t.state
    && r.hash == Request(env.matchId, env.expectedVersion, env.commandId, env.caller, env.command)
    && r.expectedVersion == r.previousVersion == |d.receipts| && r.resultingVersion == version && r.createdAt == env.occurredAt
    && |r.events| == |t.events|
    && (forall k | 0 <= k < |r.events| :: r.events[k] == CommittedEvent(|d.outbox| + k + 1, version, t.events[k], env.occurredAt))
    && d'.configuration == d.configuration && d'.receipts == d.receipts + [r]
    && d'.actions == d.actions + [CommandDocuments.Action(env.commandId, env.command, actor, |d.receipts|, version, r.events, env.occurredAt)]
    && |d'.outbox| == |d.outbox| + |r.events| && d'.outbox[..|d.outbox|] == d.outbox
    && (forall k | 0 <= k < |r.events| :: d'.outbox[|d.outbox| + k] == OutboxDocument(r.events[k], OutboxPending))
    && d'.snapshot == Snapshot(version, d.snapshot.projection, t.state, env.occurredAt)
  }

  /** The guards of a commit, each of which a client could check. */
  ghost predicate Committable(d: MatchDocuments, env: Envelope, actor: Actor) {
    && Execute(d.snapshot.state, actor, env.command, env.occurredAt).Some?
    && env.occurredAt != 0 && d.snapshot.updatedAt <= env.occurredAt && !G.Breaks(d.snapshot.state, env.command)
  }

  lemma CommitWrites(d: MatchDocuments, env: Envelope, actor: Actor, t: Transition)
    requires Consistent(d) && Execute(d.snapshot.state, actor, env.command, env.occurredAt) == Some(t)
    requires env.expectedVersion == |d.receipts|
    ensures var r := NewReceipt(env, actor, d.snapshot.state, t, LastSequence(d.outbox));
            CommittedBy(d, Written(d, env, actor, d.snapshot.state, t, LastSequence(d.outbox)), env, actor, t, r)
  {
    hide Consistent, Execute, CommittedBy, Written, NewReceipt, LastSequence;
    P.SnapshotOfConsistent(d);
    G.VersionOnlyGrows(d.snapshot.state, actor, env.command, env.occurredAt);
    WrittenDocuments(d, env, actor, d.snapshot.state, t);
  }

  lemma WrittenDocuments(d: MatchDocuments, env: Envelope, actor: Actor, current: State, t: Transition)
    requires current.version == env.expectedVersion == |d.receipts| && t.state.version == |d.receipts| + 1
    ensures var r := NewReceipt(env, actor, current, t, |d.outbox|);
            CommittedBy(d, Written(d, env, actor, current, t, |d.outbox|), env, actor, t, r)
  {}

  /** On consistent documents, what an uninterrupted call answers: to a command id that has been
      used, the original or a mismatch; the current version to one that expected another; a
      refusal without authorization, for an unknown match and for what cannot be committed. Only
      a commit changes anything, and it writes one receipt, one action, the new snapshot and the
      events, numbered on and yet to be published. */
  lemma AnswersAreExact(store: P.Store, env: Envelope, actor: Option<Actor>)
    requires forall id | id in store :: Consistent(store[id])
    ensures var found := FindReceipt(P.Receipts(store, env.matchId), env.commandId);
            var (store', answer) := AtOnce(store, env, actor);
            if found.Some? then
              store' == store
              && answer == if found.value.hash == Request(env.matchId, env.expectedVersion, env.commandId, env.caller, env.command)
                           then P.Replayed(found.value) else P.Mismatch
            else if actor.None? || env.matchId !in store then store' == store && answer == P.Refused
            else if env.expectedVersion != |store[env.matchId].receipts| then
              store' == store && answer == P.VersionConflict(|store[env.matchId].receipts|)
            else if !Committable(store[env.matchId], env, actor.value) then store' == store && answer == P.Refused
            else
              && answer.Applied? && env.matchId in store' && store' == store[env.matchId := store'[env.matchId]]
              && CommittedBy(store[env.matchId], store'[env.matchId], env, actor.value,
                             Execute(store[env.matchId].snapshot.state, actor.value, env.command, env.occurredAt).value, answer.receipt)
  {
    hide Consistent, Execute, ValidateState, Commits, Written, NewReceipt, CommittedBy, G.Breaks;
    var found := FindReceipt(P.Receipts(store, env.matchId), env.commandId);
    if found.None? && actor.Some? && env.matchId in store {
      var d := store[env.matchId];
      P.SnapshotOfConsistent(d);
      G.VersionOnlyGrows(d.snapshot.state, actor.value, env.command, env.occurredAt);
      var t := Execute(d.snapshot.state, actor.value, env.command, env.occurredAt);
      if env.expectedVersion == |d.receipts| && t.Some? {
        CommitsExactlyWhen(d, env, actor.value);
        CommitWrites(d, env, actor.value, t.value);
      }
    }
  }

  /** The same call over and over, by whomever it is authorized: what it answers each time. */
  ghost function Again(store: P.Store, env: Envelope, actors: seq<Option<Actor>>): (P.Store, seq<P.Answer>) {
    if actors == [] then (store, [])
    else
      var (store1, answers) := Again(store, env, actors[..|actors| - 1]);
      var (store2, answer) := AtOnce(store1, env, actors[|actors| - 1]);
      (store2, answers + [answer])
  }

  lemma AppliedIsFound(store: P.Store, env: Envelope, actor: Option<Actor>)
    requires forall id | id in store :: Consistent(store[id])
    requires AtOnce(store, env, actor).1.Applied?
    ensures FindReceipt(P.Receipts(AtOnce(store, env, actor).0, env.matchId), env.commandId) == Some(AtOnce(store, env, actor).1.receipt)
  {
    hide Consistent, Execute, ValidateState, Written, NewReceipt, Commits, AtOnce;
    var (store', answer) := AtOnce(store, env, actor);
    AnswersAreExact(store, env, actor);
    var d, r := store[env.matchId], answer.receipt;
    FoundAtTheEnd(d.receipts, r);
  }

  lemma {:induction false} FoundAtTheEnd(receipts: seq<Receipt>, r: Receipt)
    requires !HasReceipt(receipts, r.commandId)
    ensures FindReceipt(receipts + [r], r.commandId) == Some(r)
  {
    if receipts != [] {
      assert receipts[0].commandId != r.commandId;
      forall i | 0 <= i < |receipts[1..]| ensures receipts[1..][i].commandId != r.commandId {
        assert receipts[1..][i] == receipts[i + 1];
      }
      FoundAtTheEnd(receipts[1..], r);
      assert (receipts + [r])[1..] == receipts[1..] + [r];
    }
  }

  /** A command that was applied is answered with its receipt, as a replay, however often it is
      sent again and by whomever, and nothing is written any more. */
  lemma {:induction false} AppliedThenReplayed(store: P.Store, env: Envelope, actor: Option<Actor>, actors: seq<Option<Actor>>)
    requires forall id | id in store :: Consistent(store[id])
    requires AtOnce(store, env, actor).1.Applied?
    ensures var (store', answer) := AtOnce(store, env, actor);
            var (after, answers) := Again(store', env, actors);
            && after == store' && |answers| == |actors|
            && forall i | 0 <= i < |answers| :: answers[i] == P.Replayed(answer.receipt)
  {
    hide Consistent, Execute, ValidateState, Written, NewReceipt, Commits, FindReceipt;
    AppliedIsFound(store, env, actor);
    AppliedHash(store, env, actor);
    if actors != [] { AppliedThenReplayed(store, env, actor, actors[..|actors| - 1]); }
  }

  lemma AppliedHash(store: P.Store, env: Envelope, actor: Option<Actor>)
    requires AtOnce(store, env, actor).1.Applied?
    ensures AtOnce(store, env, actor).1.receipt.hash == env.Hash()
  {
    hide Execute, ValidateState, Written, Commits, FindReceipt, Numbered;
  }

  /** The snapshot is replaced exactly by a valid state of the next version, of the same frozen
      configuration and slots of the same mods, at a time that is not earlier. */
  lemma SwapsExactly(stored: Snapshot, expected: nat, next: State, now: Time)
    ensures Swaps(stored, expected, next, now) <==>
              && next.version == expected + 1 && now != 0 && ValidateState(next)
              && stored.version == expected && stored.updatedAt <= now && stored.projection.config == next.config
              && stored.projection.mods == map id | id in next.pool :: next.pool[id].mod
  {
    hide ValidateState;
  }

  // ----- the store object

  class CommandStore {
    var snapshots: map<MatchId, Snapshot>
    var actions: map<MatchId, seq<Action>>
    var outbox: map<MatchId, seq<OutboxDocument>>
    var receipts: map<MatchId, seq<Receipt>>
    ghost var configurations: map<MatchId, Configuration>

    ghost predicate Valid()
      reads this
    {
      snapshots.Keys == actions.Keys == outbox.Keys == receipts.Keys == configurations.Keys
    }

    ghost function Contents(): P.Store
      requires Valid()
      reads this
    {
      Assembled(snapshots, actions, outbox, receipts, configurations)
    }

    constructor ()
      ensures Valid() && Contents() == map[]
    {
      snapshots, actions, outbox, receipts, configurations := map[], map[], map[], map[], map[];
    }

    method Install(id: MatchId, d: MatchDocuments)
      requires Valid()
      modifies this
      ensures Valid() && Contents() == old(Contents())[id := d]
    {
      hide Assembled;
      AssembledWith(snapshots, actions, outbox, receipts, configurations, id, d);
      snapshots := snapshots[id := d.snapshot];
      configurations := configurations[id := d.configuration];
      InstallLogs(id, d);
    }

    method InstallLogs(id: MatchId, d: MatchDocuments)
      modifies this`actions, this`outbox, this`receipts
      ensures actions == old(actions)[id := d.actions] && outbox == old(outbox)[id := d.outbox]
      ensures receipts == old(receipts)[id := d.receipts]
    {
      actions := actions[id := d.actions];
      outbox := outbox[id := d.outbox];
      receipts := receipts[id := d.receipts];
    }

    /** SnapshotStore.Create: one snapshot per match, checked before it is stored. */
    method Create(id: MatchId, c: Configuration, now: Time) returns (created: bool)
      requires Valid()
      modifies this
      ensures Valid()
      ensures created <==> id !in old(Contents()) && ValidConfiguration(c) && now != 0
      ensures Contents() ==
                if created then
                  old(Contents())[id := MatchDocuments(c, Snapshot(0, ProjectionOf(ReadyState(c)), ReadyState(c), now), [], [], [])]
                else old(Contents())
    {
      hide ValidConfiguration;
      var m := NewReadyState(c);
      if m.None? || now == 0 || id in snapshots { return false; }
      Install(id, Created(c, now));
      return true;
    }

    method LoadReceipt(env: Envelope) returns (found: Option<Receipt>)
      requires Valid()
      ensures found == FindReceipt(P.Receipts(Contents(), env.matchId), env.commandId)
    {
      if env.matchId !in receipts { return None; }
      var rs := receipts[env.matchId];
      var i := 0;
      while i < |rs|
        invariant 0 <= i <= |rs| && FindReceipt(rs, env.commandId) == FindReceipt(rs[i..], env.commandId)
      {
        if rs[i].commandId == env.commandId { return Some(rs[i]); }
        i := i + 1;
      }
      return None;
    }

    method LastSequenceOf(id: MatchId) returns (last: nat)
      requires Valid() && id in snapshots
      ensures last == LastSequence(outbox[id])
    {
      last := 0;
      for i := 0 to |outbox[id]|
        invariant last == LastSequence(outbox[id][..i])
      {
        assert outbox[id][..i + 1][..i] == outbox[id][..i];
        if last < outbox[id][i].event.sequence { last := outbox[id][i].event.sequence; }
      }
      assert outbox[id][..|outbox[id]|] == outbox[id];
    }

    /** Load: the stored snapshot, decoded and checked. */
    method LoadSnapshot(id: MatchId) returns (current: Option<State>)
      requires Valid()
      ensures current.Some? <==> id in Contents() && P.Decodes(Contents()[id].snapshot)
      ensures current.Some? ==> current.value == Contents()[id].snapshot.state && ValidateState(current.value)
    {
      hide ValidateState, ProjectionOf;
      if id !in snapshots { return None; }
      var stored := snapshots[id];
      if stored.state.version != stored.version || ProjectionOf(stored.state) != stored.projection { return None; }
      var m := new Match(stored.state);
      var ok := CheckState(m);
      return if ok then Some(stored.state) else None;
    }

    method CompareAndSwap(id: MatchId, expected: nat, next: State, now: Time) returns (swapped: bool)
      requires Valid() && id in snapshots
      modifies this`snapshots
      ensures Valid() && swapped == Swaps(old(Contents())[id].snapshot, expected, next, now)
      ensures Contents() == if swapped then old(Contents())[id := Swapped(old(Contents())[id], next, now)] else old(Contents())
    {
      hide ValidateState, ProjectionOf, Assembled;
      AssembledParts(snapshots, actions, outbox, receipts, configurations, id);
      if next.version != expected + 1 || now == 0 { return false; }
      var m := new Match(next);
      var ok := CheckState(m);
      if !ok { return false; }
      var stored := snapshots[id];
      if stored.version != expected || stored.projection != ProjectionOf(next) || stored.updatedAt > now {
        return false;
      }
      AssembledWith(snapshots, actions, outbox, receipts, configurations, id, Swapped(Contents()[id], next, now));
      SameEntry(actions, id);
      SameEntry(outbox, id);
      SameEntry(receipts, id);
      SameEntry(configurations, id);
      snapshots := snapshots[id := Snapshot(next.version, stored.projection, next, now)];
      return true;
    }

    method InsertAction(id: MatchId, action: Action) returns (inserted: bool)
      requires Valid() && id in snapshots
      modifies this`actions
      ensures Valid() && inserted == ActionFree(old(actions)[id], action.commandId, action.resultingVersion)
      ensures var d := old(Contents())[id];
              Contents() == if inserted then old(Contents())[id := d.(actions := d.actions + [action])] else old(Contents())
    {
      if !ActionFree(actions[id], action.commandId, action.resultingVersion) { return false; }
      var more := actions[id] + [action];
      AssembledWith(snapshots, actions, outbox, receipts, configurations, id, Contents()[id].(actions := more));
      SameEntry(snapshots, id);
      SameEntry(outbox, id);
      SameEntry(receipts, id);
      SameEntry(configurations, id);
      actions := actions[id := more];
      return true;
    }

    method InsertEvents(id: MatchId, documents: seq<OutboxDocument>) returns (inserted: bool)
      requires Valid() && id in snapshots
      modifies this`outbox
      ensures Valid() && inserted == OutboxFree(old(outbox)[id], documents)
      ensures var d := old(Contents())[id];
              Contents() == if inserted then old(Contents())[id := d.(outbox := d.outbox + documents)] else old(Contents())
    {
      if !OutboxFree(outbox[id], documents) { return false; }
      var more := outbox[id] + documents;
      AssembledWith(snapshots, actions, outbox, receipts, configurations, id, Contents()[id].(outbox := more));
      SameEntry(snapshots, id);
      SameEntry(actions, id);
      SameEntry(receipts, id);
      SameEntry(configurations, id);
      outbox := outbox[id := more];
      return true;
    }

    method InsertReceipt(id: MatchId, r: Receipt) returns (inserted: bool)
      requires Valid() && id in snapshots
      modifies this`receipts
      ensures Valid() && inserted == ReceiptFree(old(receipts)[id], r.commandId, r.resultingVersion)
      ensures var d := old(Contents())[id];
              Contents() == if inserted then old(Contents())[id := d.(receipts := d.receipts + [r])] else old(Contents())
    {
      if !ReceiptFree(receipts[id], r.commandId, r.resultingVersion) { return false; }
      var more := receipts[id] + [r];
      AssembledWith(snapshots, actions, outbox, receipts, configurations, id, Contents()[id].(receipts := more));
      SameEntry(snapshots, id);
      SameEntry(actions, id);
      SameEntry(outbox, id);
      SameEntry(configurations, id);
      receipts := receipts[id := more];
      return true;
    }

    /** The engine on a copy of the loaded state. */
    method Run(current: State, actor: Actor, command: Command, now: Time) returns (t: Option<Transition>)
      requires ValidateState(current)
      ensures t == Execute(current, actor, command, now)
    {
      hide ValidateState, Execute;
      ValidIsOrderly(current);
      var m := new Match(current);
      var next, events := m.Execute(actor, command, now);
      if events.None? { return None; }
      return Some(Transition(next.Snapshot(), events.value));
    }

    method BuildOutbox(kinds: seq<EventType>, last: nat, version: nat, at: Time)
      returns (documents: seq<OutboxDocument>, committed: seq<CommittedEvent>)
      ensures committed == Numbered(kinds, last, version, at) && documents == Pending(committed)
    {
      documents, committed := [], [];
      for i := 0 to |kinds|
        invariant committed == Numbered(kinds[..i], last, version, at) && documents == Pending(committed)
      {
        var event := CommittedEvent(last + i + 1, version, kinds[i], at);
        committed := committed + [event];
        documents := documents + [OutboxDocument(event, OutboxPending)];
      }
      assert kinds[..|kinds|] == kinds;
    }

    /** The writes of the transaction, in the order of the source, up to the first that fails. */
    method WriteAll(env: Envelope, actor: Actor, current: State, t: Transition, last: nat)
      returns (receipt: Option<Receipt>)
      requires Valid() && env.matchId in snapshots
      modifies this
      ensures Valid()
      ensures var d := old(Contents())[env.matchId];
              && (receipt.Some? <==> Commits(d, env, actor, current, t, last))
              && (receipt.Some? ==> receipt.value == NewReceipt(env, actor, current, t, last))
              && (receipt.Some? ==> Contents() == old(Contents())[env.matchId := Written(d, env, actor, current, t, last)])
    {
      hide Swaps, Assembled, ActionFree, OutboxFree, ReceiptFree, Numbered, Pending, Inserts;
      var id := env.matchId;
      ghost var was := Contents();
      var documents, committed := BuildOutbox(t.events, last, t.state.version, env.occurredAt);
      var action := Action(env.commandId, env.command, actor, current.version, t.state.version, committed, env.occurredAt);
      var r := Receipt(env.commandId, env.Hash(), env.command, actor, env.expectedVersion, current.version, t.state.version,
                       t.state, committed, env.occurredAt);
      AssembledParts(snapshots, actions, outbox, receipts, configurations, id);
      IndexesDecide(was[id], r, documents);
      var written := CompareAndSwap(id, current.version, t.state, env.occurredAt);
      if !written { return None; }
      written := InsertAction(id, action);
      if !written { return None; }
      written := InsertEvents(id, documents);
      if !written { return None; }
      written := InsertReceipt(id, r);
      if !written { return None; }
      assert was[id].(snapshot := Swapped(was[id], t.state, env.occurredAt).snapshot, actions := was[id].actions + [action],
                      outbox := was[id].outbox + documents, receipts := was[id].receipts + [r])
          == Written(was[id], env, actor, current, t, last);
      return Some(r);
    }

    /** WithTransaction: a failing write undoes the ones before it. */
    method Transact(env: Envelope, actor: Actor, current: State, t: Transition, last: nat)
      returns (receipt: Option<Receipt>)
      requires Valid() && env.matchId in snapshots
      modifies this
      ensures Valid()
      ensures var d := old(Contents())[env.matchId];
              if Commits(d, env, actor, current, t, last) then
                && receipt == Some(NewReceipt(env, actor, current, t, last))
                && Contents() == old(Contents())[env.matchId := Written(d, env, actor, current, t, last)]
              else receipt.None? && Contents() == old(Contents())
    {
      hide Commits, Written, NewReceipt, Assembled;
      var snapshots0, actions0, outbox0, receipts0 := snapshots, actions, outbox, receipts;
      ghost var configurations0 := configurations;
      receipt := WriteAll(env, actor, current, t, last);
      if receipt.None? {
        snapshots, actions, outbox, receipts := snapshots0, actions0, outbox0, receipts0;
        configurations := configurations0;
      }
    }

    /** Apply, with nobody else in between. */
    method Apply(env: Envelope, actor: Option<Actor>) returns (answer: P.Answer)
      requires Valid()
      modifies this
      ensures Valid() && (Contents(), answer) == AtOnce(old(Contents()), env, actor)
    {
      hide ValidateState, Execute, Commits, Written, NewReceipt;
      var found := LoadReceipt(env);
      if found.Some? { return P.ReplayOf(found.value, env); }
      if actor.None? { return P.Refused; }
      var current := LoadSnapshot(env.matchId);
      if current.None? { return P.Refused; }
      if current.value.version != env.expectedVersion { return P.VersionConflict(current.value.version); }
      var t := Run(current.value, actor.value, env.command, env.occurredAt);
      if t.None? || t.value.state.version != current.value.version + 1 { return P.Refused; }
      var last := LastSequenceOf(env.matchId);
      var receipt := Transact(env, actor.value, current.value, t.value, last);
      return if receipt.Some? then P.Applied(receipt.value) else P.Refused;
    }
  }

  /** The collections, put together match by match. */
  ghost function Assembled(
      snapshots: map<MatchId, Snapshot>, actions: map<MatchId, seq<Action>>, outbox: map<MatchId, seq<OutboxDocument>>,
      receipts: map<MatchId, seq<Receipt>>, configurations: map<MatchId, Configuration>): P.Store
    requires snapshots.Keys == actions.Keys == outbox.Keys == receipts.Keys == configurations.Keys
  {
    map id | id in snapshots :: MatchDocuments(configurations[id], snapshots[id], actions[id], outbox[id], receipts[id])
  }

  lemma AssembledWith(
      snapshots: map<MatchId, Snapshot>, actions: map<MatchId, seq<Action>>, outbox: map<MatchId, seq<OutboxDocument>>,
      receipts: map<MatchId, seq<Receipt>>, configurations: map<MatchId, Configuration>, id: MatchId, d: MatchDocuments)
    requires snapshots.Keys == actions.Keys == outbox.Keys == receipts.Keys == configurations.Keys
    ensures Assembled(snapshots[id := d.snapshot], actions[id := d.actions], outbox[id := d.outbox],
                      receipts[id := d.receipts], configurations[id := d.configuration])
         == Assembled(snapshots, actions, outbox, receipts, configurations)[id := d]
  {}

  lemma AssembledParts(
      snapshots: map<MatchId, Snapshot>, actions: map<MatchId, seq<Action>>, outbox: map<MatchId, seq<OutboxDocument>>,
      receipts: map<MatchId, seq<Receipt>>, configurations: map<MatchId, Configuration>, id: MatchId)
    requires snapshots.Keys == actions.Keys == outbox.Keys == receipts.Keys == configurations.Keys && id in snapshots
    ensures var store := Assembled(snapshots, actions, outbox, receipts, configurations);
            id in store && store[id] == MatchDocuments(configurations[id], snapshots[id], actions[id], outbox[id], receipts[id])
  {}

  lemma SameEntry<T>(entries: map<MatchId, T>, id: MatchId)
    requires id in entries
    ensures entries[id := entries[id]] == entries
  {}

  function Swapped(d: MatchDocuments, next: State, now: Time): MatchDocuments {
    d.(snapshot := Snapshot(next.version, d.snapshot.projection, next, now))
  }

  // The unique indexes of the three collections (command_store.go 111-134).
  predicate ActionFree(actions: seq<Action>, id: CommandId, version: nat) {
    forall i | 0 <= i < |actions| :: actions[i].commandId != id && actions[i].resultingVersion != version
  }

  predicate OutboxFree(outbox: seq<OutboxDocument>, documents: seq<OutboxDocument>) {
    forall i, k | 0 <= i < |outbox| && 0 <= k < |documents| :: outbox[i].event.sequence != documents[k].event.sequence
  }

  predicate ReceiptFree(receipts: seq<Receipt>, id: CommandId, version: nat) {
    forall i | 0 <= i < |receipts| :: receipts[i].commandId != id && receipts[i].resultingVersion != version
  }

  lemma IndexesDecide(d: MatchDocuments, r: Receipt, documents: seq<OutboxDocument>)
    requires documents == Pending(r.events)
    ensures Inserts(d, r) <==>
              && ActionFree(d.actions, r.commandId, r.resultingVersion) && OutboxFree(d.outbox, documents)
              && ReceiptFree(d.receipts, r.commandId, r.resultingVersion)
  {
    assert forall k | 0 <= k < |documents| :: documents[k].event == r.events[k];
  }
}
