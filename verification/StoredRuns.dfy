/** Which runs a command store can hold: those CommandProtocol.StoredStatesAreRuns finds
    there, and every other committed run whose clock never goes back (internal/persistence/
    command_store.go 482-606, snapshot_store.go 179-191, 276-343). */
module StoredRuns {
  import opened MatchModel
  import opened Rules
  import opened Validation
  import opened Runs
  import opened CommandDocuments
  import G = GateExactness
  import P = CommandProtocol
  import S = CommandStores

  /** The match's documents record this run, and their snapshot is its state. */
  ghost predicate Stores(b: P.Behaviour, id: MatchId, r: Run) {
    && P.Possible(b) && id in b.world.store
    && RunOf(b.world.store[id].configuration, b.world.store[id].receipts) == r
    && b.world.store[id].snapshot.state == StateOf(r)
  }

  // ----- what is stored is in order

  lemma {:induction false} ReceiptsInOrder(c: Configuration, receipts: seq<Receipt>)
    requires forall i, j | 0 <= i < j < |receipts| :: receipts[i].createdAt <= receipts[j].createdAt
    ensures InOrder(RunOf(c, receipts))
  {
    if receipts != [] { ReceiptsInOrder(c, receipts[..|receipts| - 1]); }
  }

  lemma ConsistentInOrder(d: MatchDocuments)
    requires Consistent(d)
    ensures Committed(RunOf(d.configuration, d.receipts)) && InOrder(RunOf(d.configuration, d.receipts))
  {
    hide Committed, Folded, ReceiptFits, AllEvents, Events, RunOf;
    ReceiptsInOrder(d.configuration, d.receipts);
  }

  // ----- what is in order can be stored

  lemma {:induction false} LongerThanIds(receipts: seq<Receipt>) returns (bound: nat)
    ensures forall i | 0 <= i < |receipts| :: |receipts[i].commandId| < bound
  {
    bound := 0;
    if receipts != [] {
      bound := LongerThanIds(receipts[1..]);
      if bound <= |receipts[0].commandId| { bound := |receipts[0].commandId| + 1; }
      forall i | 0 <= i < |receipts| ensures |receipts[i].commandId| < bound {
        if i > 0 { assert receipts[i] == receipts[1..][i - 1]; }
      }
    }
  }

  predicate AtRest(b: P.Behaviour) { 0 in b.world.clients && b.world.clients[0].Idle? }

  /** The first client, at rest, submits a command that the engine and the gate let through. */
  lemma Submitted(b: P.Behaviour, id: MatchId, actor: Actor, command: Command, now: Time) returns (b': P.Behaviour)
    requires P.Possible(b) && id in b.world.store && AtRest(b)
    requires Consistent(b.world.store[id]) && now != 0 && b.world.store[id].snapshot.updatedAt <= now
    requires Execute(b.world.store[id].snapshot.state, actor, command, now).Some?
    requires !G.Breaks(b.world.store[id].snapshot.state, command)
    ensures P.Possible(b') && id in b'.world.store && AtRest(b')
    ensures b'.world.store == b.world.store[id := b'.world.store[id]]
    ensures var d, d' := b.world.store[id], b'.world.store[id];
            && d'.configuration == d.configuration && d'.snapshot.updatedAt == now
            && |d'.receipts| == |d.receipts| + 1 && d'.receipts[..|d.receipts|] == d.receipts
            && var r := d'.receipts[|d.receipts|];
               r.commandId != "" && r.actor == actor && r.command == command && r.createdAt == now
  {
    hide P.Possible, P.Decodes, Consistent, Execute, Commits, G.Breaks, Numbered;
    var d := b.world.store[id];
    var bound := LongerThanIds(d.receipts);
    var env := Envelope(id, seq(bound + 1, _ => 'x'), 0, command, |d.receipts|, now);
    P.SnapshotOfConsistent(d);
    G.VersionOnlyGrows(d.snapshot.state, actor, command, now);
    S.CommitsExactlyWhen(d, env, actor);
    var looking := S.Moves(b, 0, P.Looking(env), b.world.store);
    var answered := S.AtOnceIsARun(looking, 0, env, Some(actor));
    b' := S.Moves(answered, 0, P.Idle, answered.world.store);
  }

  function FirstTime(r: Run): Time { if r.Start? then 1 else if r.before.Start? then r.now else FirstTime(r.before) }

  lemma {:induction false} FirstTimeIsSet(r: Run)
    requires Committed(r)
    ensures FirstTime(r) != 0
  {
    hide Execute, ValidateState, StateOf;
    if r.Step? && r.before.Step? { FirstTimeIsSet(r.before); }
  }

  /** Beside whatever a server stores already, it can be given a match with this history. */
  lemma {:induction false} StoredBeside(base: P.Behaviour, r: Run, id: MatchId, created: Time) returns (b: P.Behaviour)
    requires P.Possible(base) && AtRest(base) && id !in base.world.store
    requires Committed(r) && InOrder(r) && created != 0 && (r.Step? ==> created <= FirstTime(r))
    ensures Stores(b, id, r) && AtRest(b) && b.world.store == base.world.store[id := b.world.store[id]]
    ensures b.world.store[id].snapshot.updatedAt == if r.Start? then created else r.now
    ensures r.Step? ==> b.world.store[id].receipts != [] && Last(b.world.store[id].receipts).commandId != ""
    ensures r.Step? ==> Last(b.world.store[id].receipts).command == r.command
  {
    hide P.Possible, P.Next, ValidateState, Execute, Consistent, G.Breaks, StateOf;
    if r.Start? {
      b := Opened(base, r.config, id, created);
    } else {
      b := StoredBeside(base, r.before, id, created);
      P.EveryBehaviourIsSound(b);
      RunsGoOn(r.before, r.actor, r.command, r.now);
      b := Submitted(b, id, r.actor, r.command, r.now);
      P.EveryBehaviourIsSound(b);
      var d := b.world.store[id];
      P.SnapshotOfConsistent(d);
      assert d.receipts[..|d.receipts|] == d.receipts;
    }
  }

  function Last(receipts: seq<Receipt>): Receipt
    requires receipts != []
  {
    receipts[|receipts| - 1]
  }

  lemma Opened(base: P.Behaviour, c: Configuration, id: MatchId, created: Time) returns (b: P.Behaviour)
    requires P.Possible(base) && AtRest(base) && id !in base.world.store && ValidConfiguration(c) && created != 0
    ensures Stores(b, id, Start(c)) && AtRest(b) && b.world.store == base.world.store[id := Created(c, created)]
  {
    hide ValidConfiguration, ReadyState, P.Possible;
    var store := base.world.store[id := Created(c, created)];
    b := P.Extend(base, P.MatchCreated(id, c, created), P.World(store, base.world.clients));
    assert P.Next(base.world, b.world, b.move);
    S.PossibleExtends(b);
  }

  lemma EmptyServer() returns (b: P.Behaviour)
    ensures P.Possible(b) && AtRest(b) && b.world.store == map[]
  {
    b := P.Begin(P.World(map[], map[0 := P.Idle]));
  }

  /** Exactly the committed runs whose clock never goes back can be a match's history. */
  lemma StorableExactly(r: Run, id: MatchId)
    ensures (exists b :: Stores(b, id, r)) <==> Committed(r) && InOrder(r)
  {
    hide P.Possible, Committed, StateOf;
    if Committed(r) && InOrder(r) {
      FirstTimeIsSet(r);
      var empty := EmptyServer();
      var b := StoredBeside(empty, r, id, FirstTime(r));
    }
    forall b | Stores(b, id, r) ensures Committed(r) && InOrder(r) {
      P.EveryBehaviourIsSound(b);
      ConsistentInOrder(b.world.store[id]);
    }
  }
}
