/** CommandStore.Apply under every interleaving (internal/persistence/command_store.go
    482-606). Each client looks for a receipt, reads the snapshot, reads the last event
    sequence and commits; between any two of its steps other clients, the publisher and
    match creation may run. Reads see the documents of the moment they happen, which
    allows more than the database's transactions do. */
module CommandProtocol {
  import opened MatchModel
  import opened Rules
  import opened Validation
  import opened Runs
  import opened CommandDocuments
  import G = GateExactness

  datatype Answer =
    | Applied(receipt: Receipt)
    | Replayed(receipt: Receipt)
    | Mismatch
    | VersionConflict(current: nat)
    | Refused

  datatype Client =
    | Idle
    | Looking(env: Envelope)
    | Authorized(env: Envelope, actor: Actor)
    | Loaded(env: Envelope, actor: Actor, current: State, t: Transition)
    | Prepared(env: Envelope, actor: Actor, current: State, t: Transition, last: nat)
    | Answered(env: Envelope, answer: Answer)

  type Store = map<MatchId, MatchDocuments>

  datatype World = World(store: Store, clients: map<nat, Client>)

  function Receipts(store: Store, id: MatchId): seq<Receipt> { if id in store then store[id].receipts else [] }

  /** loadReceipt on a receipt that was found (command_store.go 608-652). */
  function ReplayOf(r: Receipt, env: Envelope): Answer { if r.hash == env.Hash() then Replayed(r) else Mismatch }

  /** Load accepts the stored snapshot (match_snapshot.go 77-128). */
  ghost predicate Decodes(s: Snapshot) {
    s.state.version == s.version && ValidateState(s.state) && ProjectionOf(s.state) == s.projection
  }

  // ----- one client

  ghost predicate Looks(store: Store, env: Envelope, x': Client) {
    var found := FindReceipt(Receipts(store, env.matchId), env.commandId);
    if found.Some? then x' == Answered(env, ReplayOf(found.value, env))
    else x' == Answered(env, Refused) || (x'.Authorized? && x'.env == env)
  }

  ghost predicate Loads(store: Store, env: Envelope, actor: Actor, x': Client) {
    if env.matchId !in store || !Decodes(store[env.matchId].snapshot) then x' == Answered(env, Refused)
    else
      var current := store[env.matchId].snapshot.state;
      if current.version != env.expectedVersion then x' == Answered(env, VersionConflict(current.version))
      else
        var t := Execute(current, actor, env.command, env.occurredAt);
        if t.None? || t.value.state.version != current.version + 1 then x' == Answered(env, Refused)
        else x' == Loaded(env, actor, current, t.value)
  }

  ghost predicate Ends(store: Store, x: Client, store': Store, x': Client)
    requires x.Prepared?
  {
    var id := x.env.matchId;
    if id in store && Commits(store[id], x.env, x.actor, x.current, x.t, x.last) then
      && store' == store[id := Written(store[id], x.env, x.actor, x.current, x.t, x.last)]
      && x' == Answered(x.env, Applied(NewReceipt(x.env, x.actor, x.current, x.t, x.last)))
    else
      store' == store && x'.Answered? && x'.env == x.env && x'.answer in {VersionConflict(SnapshotVersion(store, id)), Refused}
  }

  function SnapshotVersion(store: Store, id: MatchId): nat { if id in store then store[id].snapshot.version else 0 }

  /** A step of Apply, a crash, or the driver's retry of an aborted transaction. */
  ghost predicate ClientStep(store: Store, x: Client, store': Store, x': Client) {
    || (store' == store && x' == Idle)
    || (store' == store && !x.Idle? && x' == Looking(x.env))
    || match x
       case Idle => store' == store && x'.Looking?
       case Looking(env) => store' == store && Looks(store, env, x')
       case Authorized(env, actor) => store' == store && Loads(store, env, actor, x')
       case Loaded(env, actor, current, t) =>
         store' == store && env.matchId in store
         && x' == Prepared(env, actor, current, t, LastSequence(store[env.matchId].outbox))
       case Prepared(_, _, _, _, _) => Ends(store, x, store', x')
       case Answered(_, _) => false
  }

  // ----- the whole system

  datatype Move =
    | ClientMoves(who: nat, after: Client)
    | MatchCreated(id: MatchId, configuration: Configuration, now: Time)
    | StatusSet(id: MatchId, index: nat, status: OutboxStatus)

  ghost predicate Next(w: World, w': World, move: Move) {
    match move
    case ClientMoves(who, after) =>
      && who in w.clients && w'.clients == w.clients[who := after]
      && ClientStep(w.store, w.clients[who], w'.store, after)
    case MatchCreated(id, c, now) =>
      id !in w.store && ValidConfiguration(c) && now != 0 && w' == w.(store := w.store[id := Created(c, now)])
    case StatusSet(id, index, status) =>
      && id in w.store && index < |w.store[id].outbox|
      && w' == w.(store := w.store[id := WithStatus(w.store[id], index, status)])
  }

  function WithStatus(d: MatchDocuments, index: nat, status: OutboxStatus): MatchDocuments
    requires index < |d.outbox|
  {
    d.(outbox := d.outbox[index := d.outbox[index].(status := status)])
  }

  ghost predicate Initial(w: World) { w.store == map[] && forall who | who in w.clients :: w.clients[who] == Idle }

  datatype Behaviour = Begin(world: World) | Extend(before: Behaviour, move: Move, world: World)

  ghost predicate Possible(b: Behaviour) {
    match b
    case Begin(w) => Initial(w)
    case Extend(before, move, w) => Possible(before) && Next(before.world, w, move)
  }

  // ----- the invariant

  /** Apply answered with a committed command, its own or the one it repeats. */
  predicate Succeeded(x: Client) { x.Answered? && (x.answer.Applied? || x.answer.Replayed?) }

  predicate Recorded(receipts: seq<Receipt>, env: Envelope, r: Receipt) {
    && r in receipts && r.commandId == env.commandId && r.command == env.command
    && r.hash == Request(env.matchId, env.expectedVersion, env.commandId, env.caller, env.command)
  }

  /** What a client may rely on: an answer is backed by a receipt of the same command. In
      flight, its state is the one committed with its expected
      version, and its last sequence is right as long as nobody else has committed. */
  ghost predicate Knows(store: Store, x: Client) {
    if Succeeded(x) then Recorded(Receipts(store, x.env.matchId), x.env, x.answer.receipt)
    else if !(x.Loaded? || x.Prepared?) then true
    else
      && x.env.matchId in store
      && var d := store[x.env.matchId];
         && x.env.expectedVersion == x.current.version <= |d.receipts|
         && x.current == Folded(d, x.current.version)
         && Execute(x.current, x.actor, x.env.command, x.env.occurredAt) == Some(x.t)
         && (x.Prepared? && x.current.version == |d.receipts| ==> x.last == |d.outbox|)
  }

  ghost predicate Sound(w: World) {
    && (forall id | id in w.store :: Consistent(w.store[id]))
    && (forall who | who in w.clients :: Knows(w.store, w.clients[who]))
  }

  /** Documents are only ever added. */
  predicate Grew(d: MatchDocuments, d': MatchDocuments) {
    && d'.configuration == d.configuration
    && d.receipts <= d'.receipts && d.actions <= d'.actions
    && |d.outbox| <= |d'.outbox| && (|d'.receipts| == |d.receipts| ==> |d'.outbox| == |d.outbox|)
    && forall k | 0 <= k < |d.outbox| :: d'.outbox[k].event == d.outbox[k].event
  }

  predicate StoreGrew(store: Store, store': Store) {
    forall id | id in store :: id in store' && Grew(store[id], store'[id])
  }

  lemma GrewKeepsFolds(d: MatchDocuments, d': MatchDocuments, version: nat)
    requires Grew(d, d') && version <= |d.receipts|
    ensures version <= |d'.receipts| && Folded(d', version) == Folded(d, version)
  {
    assert d'.receipts[..version] == d.receipts[..version];
  }

  lemma KnowsStill(store: Store, store': Store, x: Client)
    requires StoreGrew(store, store') && Knows(store, x)
    ensures Knows(store', x)
  {
    hide Execute, Folded;
    if Succeeded(x) {
      var rs, rs' := Receipts(store, x.env.matchId), Receipts(store', x.env.matchId);
      assert forall i | 0 <= i < |rs| :: rs'[i] == rs[i];
    } else if x.Loaded? || x.Prepared? {
      GrewKeepsFolds(store[x.env.matchId], store'[x.env.matchId], x.current.version);
    }
  }

  lemma SnapshotOfConsistent(d: MatchDocuments)
    requires Consistent(d)
    ensures d.snapshot.state == Folded(d, |d.receipts|)
    ensures d.snapshot.version == d.snapshot.state.version == |d.receipts|
    ensures LastSequence(d.outbox) == |d.outbox| && Decodes(d.snapshot)
  {
    hide ReceiptFits, Events, AllEvents, Committed, ValidateState;
    GapFreeLast(d.outbox);
    assert d.receipts[..|d.receipts|] == d.receipts;
    RunIsValid(RunOf(d.configuration, d.receipts));
  }

  lemma LoadKnows(store: Store, env: Envelope, actor: Actor, x': Client)
    requires (env.matchId in store ==> Consistent(store[env.matchId])) && Loads(store, env, actor, x')
    ensures Knows(store, x')
  {
    hide Consistent, Execute, Folded, ValidateState, ProjectionOf;
    if env.matchId in store { SnapshotOfConsistent(store[env.matchId]); }
  }

  lemma PreparingKnows(store: Store, x: Client)
    requires x.Loaded? && Knows(store, x) && Consistent(store[x.env.matchId])
    ensures Knows(store, Prepared(x.env, x.actor, x.current, x.t, LastSequence(store[x.env.matchId].outbox)))
  {
    hide Consistent, Execute, Folded;
    SnapshotOfConsistent(store[x.env.matchId]);
  }

  lemma CommittingGrows(store: Store, x: Client)
    requires x.Prepared? && Knows(store, x) && Consistent(store[x.env.matchId])
    requires Commits(store[x.env.matchId], x.env, x.actor, x.current, x.t, x.last)
    ensures x.last == |store[x.env.matchId].outbox| && x.current == store[x.env.matchId].snapshot.state
    ensures var d' := Written(store[x.env.matchId], x.env, x.actor, x.current, x.t, x.last);
            Consistent(d') && Grew(store[x.env.matchId], d')
  {
    hide Consistent, Execute, Folded, ValidateState, ProjectionOf, Numbered, Pending, Inserts;
    var d := store[x.env.matchId];
    SnapshotOfConsistent(d);
    CommitKeepsConsistent(d, x.env, x.actor, x.t);
    TransitionEmits(x.current, x.actor, x.env.command, x.env.occurredAt);
  }

  lemma TransitionEmits(s: State, actor: Actor, command: Command, now: Time)
    ensures Execute(s, actor, command, now).Some? ==> Execute(s, actor, command, now).value.events != []
  {
    hide Apply;
  }

  lemma StatusKeepsConsistent(d: MatchDocuments, index: nat, status: OutboxStatus)
    requires Consistent(d) && index < |d.outbox|
    ensures Consistent(WithStatus(d, index, status)) && Grew(d, WithStatus(d, index, status))
  {
    hide AllEvents, Committed, Execute, StateOf, RunOf, Numbered, ProjectionOf;
    var d' := WithStatus(d, index, status);
    assert Events(d'.outbox) == Events(d.outbox);
    forall i: nat | i < |d.receipts| ensures ReceiptFits(d', i) { assert ReceiptFits(d, i); }
  }

  lemma LookingKnows(store: Store, env: Envelope, x': Client)
    requires (env.matchId in store ==> Consistent(store[env.matchId])) && Looks(store, env, x')
    ensures Knows(store, x')
  {
    hide Consistent, FindReceipt, Folded, Execute;
    ReplayIsRecorded(store, env);
  }

  lemma RestingKnows(store: Store, x: Client)
    requires !Succeeded(x) && !x.Loaded? && !x.Prepared?
    ensures Knows(store, x)
  {}

  lemma CommittedKnows(store: Store, x: Client)
    requires x.Prepared? && x.env.matchId in store
    ensures var d' := Written(store[x.env.matchId], x.env, x.actor, x.current, x.t, x.last);
            Knows(store[x.env.matchId := d'],
                  Answered(x.env, Applied(NewReceipt(x.env, x.actor, x.current, x.t, x.last))))
  {
    hide Numbered, Pending;
    AppliedIsRecorded(store[x.env.matchId], x);
  }

  lemma ClientStepKnows(store: Store, x: Client, store': Store, x': Client)
    requires Knows(store, x) && ClientStep(store, x, store', x')
    requires forall id | id in store :: Consistent(store[id])
    ensures Knows(store', x')
  {
    hide Consistent, Commits, Loads, Looks, Knows, Written, NewReceipt;
    if !Succeeded(x') && !x'.Loaded? && !x'.Prepared? {
      RestingKnows(store', x');
    } else if x.Looking? {
      LookingKnows(store, x.env, x');
    } else if x.Authorized? {
      LoadKnows(store, x.env, x.actor, x');
    } else if x.Loaded? {
      PreparingKnows(store, x);
    } else {
      CommittedKnows(store, x);
    }
  }

  lemma ClientStepIsSound(w: World, w': World, who: nat, after: Client)
    requires Sound(w) && Next(w, w', ClientMoves(who, after))
    ensures (forall id | id in w'.store :: Consistent(w'.store[id])) && StoreGrew(w.store, w'.store)
    ensures Knows(w'.store, after)
  {
    hide Consistent, Commits, Loads, Looks, Knows, Grew, Written, NewReceipt;
    var x := w.clients[who];
    forall d: MatchDocuments ensures Grew(d, d) { GrewFromItself(d); }
    ClientStepKnows(w.store, x, w'.store, after);
    if x.Prepared? && w'.store != w.store {
      CommittingGrows(w.store, x);
    }
  }

  lemma AppliedIsRecorded(d: MatchDocuments, x: Client)
    requires x.Prepared?
    ensures Recorded(Written(d, x.env, x.actor, x.current, x.t, x.last).receipts, x.env,
                     NewReceipt(x.env, x.actor, x.current, x.t, x.last))
  {}

  // The hash of a stored receipt is its own request's, so an equal hash means the same command.
  lemma ReplayIsRecorded(store: Store, env: Envelope)
    requires env.matchId in store ==> Consistent(store[env.matchId])
    ensures var found := FindReceipt(Receipts(store, env.matchId), env.commandId);
            found.Some? && found.value.hash == env.Hash() ==> Recorded(Receipts(store, env.matchId), env, found.value)
  {
    hide Folded, Committed, AllEvents, Events, Execute;
    var found := FindReceipt(Receipts(store, env.matchId), env.commandId);
    if found.Some? {
      var d := store[env.matchId];
      var i: nat :| i < |d.receipts| && d.receipts[i] == found.value;
      assert ReceiptFits(d, i);
    }
  }

  lemma StepIsSound(w: World, w': World, move: Move)
    requires Sound(w) && Next(w, w', move)
    ensures Sound(w') && StoreGrew(w.store, w'.store)
  {
    hide Consistent, Knows, Grew, ClientStep;
    assert forall id | id in w.store :: Consistent(w.store[id]);
    forall d: MatchDocuments ensures Grew(d, d) { GrewFromItself(d); }
    match move {
      case ClientMoves(who, after) => ClientStepIsSound(w, w', who, after);
      case MatchCreated(id, c, now) => CreatedIsConsistent(c, now);
      case StatusSet(id, index, status) => StatusKeepsConsistent(w.store[id], index, status);
    }
    forall who | who in w'.clients ensures Knows(w'.store, w'.clients[who]) {
      if w'.clients[who] == w.clients[who] { KnowsStill(w.store, w'.store, w.clients[who]); }
    }
  }

  lemma GrewFromItself(d: MatchDocuments)
    ensures Grew(d, d)
  {}

  lemma IdleKnows(store: Store, x: Client)
    requires x.Idle?
    ensures Knows(store, x)
  {}

  /** Under every interleaving, at every moment, the documents of every match are
      consistent: versions 1..V once each, V the snapshot's version, the state of each
      version the fold of Execute over the committed commands, and one gap-free event
      sequence grouped by version. */
  lemma {:induction false} EveryBehaviourIsSound(b: Behaviour)
    requires Possible(b)
    ensures Sound(b.world)
  {
    hide Consistent, Knows, Next;
    match b
    case Begin(w) =>
      forall who | who in w.clients ensures Knows(w.store, w.clients[who]) { IdleKnows(w.store, w.clients[who]); }
    case Extend(before, move, w) =>
      EveryBehaviourIsSound(before);
      StepIsSound(before.world, w, move);
  }

  // ----- exactly once

  ghost predicate Later(b: Behaviour, b': Behaviour) { b' == b || (b'.Extend? && Later(b, b'.before)) }

  lemma GrewChains(d: MatchDocuments, d': MatchDocuments, d'': MatchDocuments)
    requires Grew(d, d') && Grew(d', d'')
    ensures Grew(d, d'')
  {}

  /** Nothing committed is ever changed or dropped. */
  lemma {:induction false} StoreOnlyGrows(b: Behaviour, b': Behaviour)
    requires Possible(b') && Later(b, b')
    ensures Possible(b) && StoreGrew(b.world.store, b'.world.store)
  {
    hide Consistent, Knows, Next, Grew, Sound;
    if b' == b {
      forall d: MatchDocuments ensures Grew(d, d) { GrewFromItself(d); }
    } else {
      StoreOnlyGrows(b, b'.before);
      EveryBehaviourIsSound(b'.before);
      StepIsSound(b'.before.world, b'.world, b'.move);
      forall id | id in b.world.store ensures id in b'.world.store && Grew(b.world.store[id], b'.world.store[id]) {
        GrewChains(b.world.store[id], b'.before.world.store[id], b'.world.store[id]);
      }
    }
  }

  lemma CommandIdsAreUnique(d: MatchDocuments, i: nat, j: nat)
    requires Consistent(d) && i < |d.receipts| && j < |d.receipts| && d.receipts[i].commandId == d.receipts[j].commandId
    ensures i == j
  {
    hide ReceiptFits, Committed, AllEvents, Events, Folded;
  }

  /** A command once committed stays committed exactly once: at every later moment its
      receipt is the only one with its id, no step of any client commits that id again, and
      every lookup has one answer: the original, if the request is the same, else a mismatch. */
  lemma CommittedOnce(b: Behaviour, b': Behaviour, id: MatchId, i: nat, env: Envelope)
    requires Possible(b') && Later(b, b')
    requires id in b.world.store && i < |b.world.store[id].receipts|
    requires env.matchId == id && env.commandId == b.world.store[id].receipts[i].commandId
    ensures id in b'.world.store && i < |b'.world.store[id].receipts|
    ensures var r := b.world.store[id].receipts[i];
            var d := b'.world.store[id];
            && d.receipts[i] == r
            && (forall j | 0 <= j < |d.receipts| && d.receipts[j].commandId == env.commandId :: j == i)
            && FindReceipt(d.receipts, env.commandId) == Some(r)
            && (env.Hash() == r.hash ==> forall x' :: Looks(b'.world.store, env, x') <==> x' == Answered(env, Replayed(r)))
            && (env.Hash() != r.hash ==> forall x' :: Looks(b'.world.store, env, x') <==> x' == Answered(env, Mismatch))
            && forall actor, current, t, last :: !Commits(d, env, actor, current, t, last)
  {
    hide Consistent, Next, Swaps;
    StoreOnlyGrows(b, b');
    EveryBehaviourIsSound(b');
    var d, r := b'.world.store[id], b.world.store[id].receipts[i];
    assert Grew(b.world.store[id], d);
    assert d.receipts[i] == r;
    forall j: nat | j < |d.receipts| && d.receipts[j].commandId == env.commandId ensures j == i {
      CommandIdsAreUnique(d, i, j);
    }
    assert HasReceipt(d.receipts, env.commandId);
    forall actor, current, t, last ensures !Commits(d, env, actor, current, t, last) {
      assert !Inserts(d, NewReceipt(env, actor, current, t, last));
    }
  }

  /** The same caller asks for the same command at the same version, perhaps at another time. */
  predicate SameRequest(x: Envelope, y: Envelope) {
    && x.matchId == y.matchId && x.commandId == y.commandId && x.caller == y.caller
    && x.expectedVersion == y.expectedVersion && x.command == y.command
  }

  /** A client that has had a successful answer gets the same one to the same request ever after,
      with the versions, the state and the events of the original; any other request with its
      command id is a mismatch. */
  lemma RepeatsAreReplayed(b: Behaviour, b': Behaviour, who: nat, env: Envelope)
    requires Possible(b') && Later(b, b') && who in b.world.clients && Succeeded(b.world.clients[who])
    requires env.matchId == b.world.clients[who].env.matchId && env.commandId == b.world.clients[who].env.commandId
    ensures var original := b.world.clients[who];
            forall x' :: Looks(b'.world.store, env, x')
                    <==> x' == Answered(env, if SameRequest(env, original.env) then Replayed(original.answer.receipt) else Mismatch)
  {
    hide Consistent, Next, Looks;
    StoreOnlyGrows(b, b');
    EveryBehaviourIsSound(b);
    var x := b.world.clients[who];
    assert Knows(b.world.store, x);
    var i: nat :| i < |b.world.store[env.matchId].receipts| && b.world.store[env.matchId].receipts[i] == x.answer.receipt;
    CommittedOnce(b, b', env.matchId, i, env);
  }

  /** A replay changes no document: only a fresh commit or a publication does. */
  lemma OnlyCommitsWrite(w: World, w': World, who: nat, after: Client)
    requires Next(w, w', ClientMoves(who, after)) && w'.store != w.store
    ensures after.Answered? && after.answer.Applied? && after.env.matchId in w.store
    ensures w.clients[who].Prepared?
    ensures !HasReceipt(w.store[after.env.matchId].receipts, after.env.commandId)
  {
    hide Swaps, Written, Loads, Looks;
  }

  /** Of any commands with the same expected version at most one commits, and a receipt
      answers for exactly the version after the one its command expected. */
  lemma OneCommitPerVersion(b: Behaviour, id: MatchId, i: nat, j: nat)
    requires Possible(b) && id in b.world.store
    requires i < |b.world.store[id].receipts| && j < |b.world.store[id].receipts|
    ensures var rs := b.world.store[id].receipts;
            && rs[i].expectedVersion + 1 == rs[i].resultingVersion == i + 1
            && (rs[i].expectedVersion == rs[j].expectedVersion ==> i == j)
  {
    hide ReceiptFits, Next, Committed, AllEvents, Events, Folded;
    EveryBehaviourIsSound(b);
    var d := b.world.store[id];
    assert Consistent(d) && ReceiptFits(d, i) && ReceiptFits(d, j);
    FitsInTime(d, i);
    FitsInTime(d, j);
  }

  // The receipt of a version, in consistent documents.
  lemma VersionIsStored(d: MatchDocuments, version: nat)
    requires Consistent(d) && 1 <= version <= |d.receipts|
    ensures && d.snapshot.version == |d.receipts|
            && d.receipts[version - 1].resultingVersion == version
            && d.receipts[version - 1].state == StateOf(RunOf(d.configuration, d.receipts[..version]))
            && Committed(RunOf(d.configuration, d.receipts[..version]))
            && d.receipts[version - 1].state.version == version
            && ValidateState(d.receipts[version - 1].state)
  {
    hide Execute, ValidateState;
    PrefixesCommitted(d.configuration, d.receipts, version);
    FitsInTime(d, version - 1);
    VersionsCount(RunOf(d.configuration, d.receipts[..version]), d.configuration, d.receipts[..version]);
    RunIsValid(RunOf(d.configuration, d.receipts[..version]));
  }

  /** Every stored state was committed by the run of the match's commands, so whatever
      holds of committed runs holds of every stored version; none is ever corrupt. */
  lemma StoredStatesAreRuns(b: Behaviour, id: MatchId, version: nat)
    requires Possible(b) && id in b.world.store && 1 <= version <= |b.world.store[id].receipts|
    ensures var d := b.world.store[id];
            && d.snapshot.version == |d.receipts|
            && d.receipts[version - 1].resultingVersion == version
            && d.receipts[version - 1].state == StateOf(RunOf(d.configuration, d.receipts[..version]))
            && Committed(RunOf(d.configuration, d.receipts[..version]))
            && d.receipts[version - 1].state.version == version
            && ValidateState(d.receipts[version - 1].state)
  {
    hide Next, Execute, ValidateState, Consistent, StateOf, Committed, RunOf;
    EveryBehaviourIsSound(b);
    VersionIsStored(b.world.store[id], version);
  }

  lemma {:induction false} PrefixesCommitted(c: Configuration, receipts: seq<Receipt>, n: nat)
    requires n <= |receipts| && Committed(RunOf(c, receipts))
    ensures Committed(RunOf(c, receipts[..n]))
  {
    hide Execute, ValidateState, StateOf;
    if n < |receipts| {
      PrefixesCommitted(c, receipts[..|receipts| - 1], n);
      assert receipts[..|receipts| - 1][..n] == receipts[..n];
    } else {
      assert receipts[..n] == receipts;
    }
  }

  lemma {:induction false} VersionsCount(r: Run, c: Configuration, receipts: seq<Receipt>)
    requires r == RunOf(c, receipts) && Committed(r)
    ensures StateOf(r).version == |receipts|
  {
    hide Execute, ValidateState;
    if receipts != [] {
      var last := receipts[|receipts| - 1];
      VersionsCount(r.before, c, receipts[..|receipts| - 1]);
      G.VersionOnlyGrows(StateOf(r.before), last.actor, last.command, last.createdAt);
    }
  }

  /** A successful answer to a command means an action of that match with that id and that
      very command is in the log. */
  lemma AnswersAreLogged(b: Behaviour, who: nat)
    requires Possible(b) && who in b.world.clients && Succeeded(b.world.clients[who])
    ensures var env := b.world.clients[who].env;
            && env.matchId in b.world.store
            && exists i :: 0 <= i < |b.world.store[env.matchId].actions|
                 && b.world.store[env.matchId].actions[i].commandId == env.commandId
                 && b.world.store[env.matchId].actions[i].command == env.command
  {
    hide Next, ReceiptFits, Committed, AllEvents, Events, Folded;
    EveryBehaviourIsSound(b);
    var x := b.world.clients[who];
    assert Knows(b.world.store, x);
    var d := b.world.store[x.env.matchId];
    var i :| 0 <= i < |d.receipts| && d.receipts[i] == x.answer.receipt;
    assert Consistent(d) && ActionFits(d.actions[i], d.receipts[i]);
  }
}
