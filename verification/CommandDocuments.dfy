/** The documents of internal/persistence/command_store.go and snapshot_store.go: one
    match's snapshot, action log, outbox and receipts, the queries on them, and the one
    transaction that writes all four. Every filter and unique index is scoped to a match,
    so the collections are kept match by match, in insertion order. */
module CommandDocuments {
  import opened MatchModel
  import opened Rules
  import opened Validation
  import opened Runs

  type MatchId = string
  type CommandId = string

  /** What canonicalRequestHash hashes (internal/matchcommand/orchestrator.go 151-169). The
      hash is taken to be injective, so the request stands for it. */
  datatype Request = Request(
    matchId: MatchId, expectedVersion: nat, commandId: CommandId, caller: int, command: Command)

  datatype Envelope = Envelope(
    matchId: MatchId, commandId: CommandId, caller: int, command: Command, expectedVersion: nat, occurredAt: Time)
  {
    function Hash(): Request { Request(matchId, expectedVersion, commandId, caller, command) }
  }

  datatype CommittedEvent = CommittedEvent(sequence: nat, version: nat, kind: EventType, occurredAt: Time)

  datatype OutboxStatus = OutboxPending | OutboxPublished | OutboxFailed

  datatype OutboxDocument = OutboxDocument(event: CommittedEvent, status: OutboxStatus)

  datatype Action = Action(
    commandId: CommandId, command: Command, actor: Actor, previousVersion: nat, resultingVersion: nat,
    events: seq<CommittedEvent>, createdAt: Time)

  datatype Receipt = Receipt(
    commandId: CommandId, hash: Request, command: Command, actor: Actor, expectedVersion: nat, previousVersion: nat,
    resultingVersion: nat, state: State, events: seq<CommittedEvent>, createdAt: Time)

  /** What stateConfigurationHash hashes; the hash is taken to be injective. */
  datatype Projection = Projection(config: Config, mods: map<Id, Mod>)

  function ProjectionOf(s: State): Projection { Projection(s.config, map id | id in s.pool :: s.pool[id].mod) }

  datatype Snapshot = Snapshot(version: nat, projection: Projection, state: State, updatedAt: Time)

  /** `configuration` is not stored: it remembers what the match was created from. */
  datatype MatchDocuments = MatchDocuments(
    configuration: Configuration, snapshot: Snapshot, actions: seq<Action>, outbox: seq<OutboxDocument>,
    receipts: seq<Receipt>)

  // ----- queries

  predicate HasReceipt(receipts: seq<Receipt>, id: CommandId) {
    exists i :: 0 <= i < |receipts| && receipts[i].commandId == id
  }

  function FindReceipt(receipts: seq<Receipt>, id: CommandId): (found: Option<Receipt>)
    ensures found.None? <==> !HasReceipt(receipts, id)
    ensures found.Some? ==> found.value in receipts && found.value.commandId == id
  {
    if receipts == [] then None
    else if receipts[0].commandId == id then Some(receipts[0])
    else
      assert HasReceipt(receipts[1..], id) ==> HasReceipt(receipts, id) by {
        if HasReceipt(receipts[1..], id) {
          var i :| 0 <= i < |receipts[1..]| && receipts[1..][i].commandId == id;
          assert receipts[i + 1].commandId == id;
        }
      }
      FindReceipt(receipts[1..], id)
  }

  /** The largest sequence of the match, 0 without events (command_store.go 708-724). */
  function LastSequence(outbox: seq<OutboxDocument>): nat {
    if outbox == [] then 0
    else
      var rest, last := LastSequence(outbox[..|outbox| - 1]), outbox[|outbox| - 1].event.sequence;
      if rest < last then last else rest
  }

  /** The events of one transition, numbered on from a sequence (command_store.go 654-706). */
  function Numbered(kinds: seq<EventType>, last: nat, version: nat, at: Time): (events: seq<CommittedEvent>)
    ensures |events| == |kinds|
  {
    seq(|kinds|, i requires 0 <= i < |kinds| => CommittedEvent(last + i + 1, version, kinds[i], at))
  }

  function Pending(events: seq<CommittedEvent>): (documents: seq<OutboxDocument>)
    ensures |documents| == |events|
  {
    seq(|events|, i requires 0 <= i < |events| => OutboxDocument(events[i], OutboxPending))
  }

  // ----- the transaction (command_store.go 518-594, snapshot_store.go 276-343)

  function NewReceipt(env: Envelope, actor: Actor, current: State, t: Transition, last: nat): Receipt {
    Receipt(env.commandId, env.Hash(), env.command, actor, env.expectedVersion, current.version, t.state.version, t.state,
            Numbered(t.events, last, t.state.version, env.occurredAt), env.occurredAt)
  }

  function NewAction(env: Envelope, actor: Actor, current: State, t: Transition, last: nat): Action {
    Action(env.commandId, env.command, actor, current.version, t.state.version,
           Numbered(t.events, last, t.state.version, env.occurredAt), env.occurredAt)
  }

  /** CompareAndSwap matches the stored snapshot and accepts the new one. */
  ghost predicate Swaps(s: Snapshot, expected: nat, next: State, now: Time) {
    && next.version == expected + 1 && now != 0 && ValidateState(next)
    && s.version == expected && s.projection == ProjectionOf(next) && s.updatedAt <= now
  }

  /** No unique index of the three collections rejects the inserts. */
  predicate Inserts(d: MatchDocuments, r: Receipt) {
    && (forall i | 0 <= i < |d.actions| :: d.actions[i].commandId != r.commandId && d.actions[i].resultingVersion != r.resultingVersion)
    && (forall i | 0 <= i < |d.receipts| :: d.receipts[i].commandId != r.commandId && d.receipts[i].resultingVersion != r.resultingVersion)
    && (forall i, k | 0 <= i < |d.outbox| && 0 <= k < |r.events| :: d.outbox[i].event.sequence != r.events[k].sequence)
  }

  function Written(d: MatchDocuments, env: Envelope, actor: Actor, current: State, t: Transition, last: nat): MatchDocuments {
    var r := NewReceipt(env, actor, current, t, last);
    d.(snapshot := Snapshot(t.state.version, d.snapshot.projection, t.state, env.occurredAt),
       actions := d.actions + [NewAction(env, actor, current, t, last)],
       outbox := d.outbox + Pending(r.events),
       receipts := d.receipts + [r])
  }

  ghost predicate Commits(d: MatchDocuments, env: Envelope, actor: Actor, current: State, t: Transition, last: nat) {
    Swaps(d.snapshot, current.version, t.state, env.occurredAt) && Inserts(d, NewReceipt(env, actor, current, t, last))
  }

  // ----- what the documents of one match say together

  /** The run the receipts record, in commit order. */
  ghost function RunOf(c: Configuration, receipts: seq<Receipt>): Run {
    if receipts == [] then Start(c)
    else
      var last := receipts[|receipts| - 1];
      Step(RunOf(c, receipts[..|receipts| - 1]), last.actor, last.command, last.createdAt)
  }

  /** The state committed with a version: the fold of Execute over the commands so far. */
  ghost function Folded(d: MatchDocuments, version: nat): State
    requires version <= |d.receipts|
  {
    StateOf(RunOf(d.configuration, d.receipts[..version]))
  }

  /** The events of the receipts, one command after another. */
  function AllEvents(receipts: seq<Receipt>): seq<CommittedEvent> {
    if receipts == [] then [] else AllEvents(receipts[..|receipts| - 1]) + receipts[|receipts| - 1].events
  }

  function Events(outbox: seq<OutboxDocument>): (events: seq<CommittedEvent>)
    ensures |events| == |outbox|
  {
    seq(|outbox|, i requires 0 <= i < |outbox| => outbox[i].event)
  }

  /** Receipt i committed version i + 1, with the fold's state and its transition's events. */
  ghost predicate ReceiptFits(d: MatchDocuments, i: nat)
    requires i < |d.receipts|
  {
    var r := d.receipts[i];
    && r.hash.command == r.command
    && r.expectedVersion == r.previousVersion == i && r.resultingVersion == i + 1
    && r.state == Folded(d, i + 1)
    && r.createdAt <= d.snapshot.updatedAt
    && var t := Execute(Folded(d, i), r.actor, r.command, r.createdAt);
       t.Some? && t.value.state == r.state
       && r.events == Numbered(t.value.events, |AllEvents(d.receipts[..i])|, i + 1, r.createdAt)
  }

  predicate ActionFits(a: Action, r: Receipt) {
    a == Action(r.commandId, r.command, r.actor, r.previousVersion, r.resultingVersion, r.events, r.createdAt)
  }

  ghost predicate Consistent(d: MatchDocuments) {
    && Committed(RunOf(d.configuration, d.receipts))
    && d.snapshot.state == Folded(d, |d.receipts|)
    && d.snapshot.version == d.snapshot.state.version == |d.receipts|
    && d.snapshot.projection == ProjectionOf(d.snapshot.state)
    && (forall i: nat | i < |d.receipts| :: ReceiptFits(d, i))
    && |d.actions| == |d.receipts| && (forall i | 0 <= i < |d.actions| :: ActionFits(d.actions[i], d.receipts[i]))
    && (forall i, j | 0 <= i < j < |d.receipts| :: d.receipts[i].commandId != d.receipts[j].commandId)
    && (forall i, j | 0 <= i < j < |d.receipts| :: d.receipts[i].createdAt <= d.receipts[j].createdAt)
    && Events(d.outbox) == AllEvents(d.receipts)
    && (forall k | 0 <= k < |d.outbox| :: d.outbox[k].event.sequence == k + 1)
  }

  // ----- one match's first documents

  function Created(c: Configuration, now: Time): MatchDocuments {
    var s := ReadyState(c);
    MatchDocuments(c, Snapshot(s.version, ProjectionOf(s), s, now), [], [], [])
  }

  lemma CreatedIsConsistent(c: Configuration, now: Time)
    requires ValidConfiguration(c)
    ensures Consistent(Created(c, now))
  {
    hide ValidConfiguration;
  }

  // ----- a commit keeps everything

  lemma {:induction false} GapFreeLast(outbox: seq<OutboxDocument>)
    requires forall k | 0 <= k < |outbox| :: outbox[k].event.sequence == k + 1
    ensures LastSequence(outbox) == |outbox|
  {
    if outbox != [] { GapFreeLast(outbox[..|outbox| - 1]); }
  }

  lemma EarlierPrefix(receipts: seq<Receipt>, r: Receipt, i: nat)
    requires i <= |receipts|
    ensures (receipts + [r])[..i] == receipts[..i]
  {}

  lemma AllEventsOfMore(receipts: seq<Receipt>, r: Receipt)
    ensures AllEvents(receipts + [r]) == AllEvents(receipts) + r.events
    ensures forall c :: RunOf(c, receipts + [r]) == Step(RunOf(c, receipts), r.actor, r.command, r.createdAt)
  {
    assert (receipts + [r])[..|receipts|] == receipts;
  }

  // The receipts already there fit as before, whatever is appended.
  lemma FitsStill(d: MatchDocuments, d': MatchDocuments, r: Receipt, i: nat)
    requires i < |d.receipts| && ReceiptFits(d, i)
    requires d'.receipts == d.receipts + [r] && d'.configuration == d.configuration
    requires d.snapshot.updatedAt <= d'.snapshot.updatedAt
    ensures ReceiptFits(d', i)
  {
    hide Execute, StateOf, RunOf, AllEvents, Numbered;
    EarlierPrefix(d.receipts, r, i);
    EarlierPrefix(d.receipts, r, i + 1);
  }

  lemma NewReceiptFits(d: MatchDocuments, env: Envelope, actor: Actor, t: Transition)
    requires Consistent(d) && env.expectedVersion == |d.receipts|
    requires Execute(d.snapshot.state, actor, env.command, env.occurredAt) == Some(t)
    requires Commits(d, env, actor, d.snapshot.state, t, |d.outbox|)
    ensures var d' := Written(d, env, actor, d.snapshot.state, t, |d.outbox|);
            ReceiptFits(d', |d.receipts|) && Committed(RunOf(d'.configuration, d'.receipts))
            && d'.snapshot.state == Folded(d', |d'.receipts|)
  {
    hide Execute, ValidateState, AllEvents, ReceiptFits, ProjectionOf, Numbered, Inserts;
    var r := NewReceipt(env, actor, d.snapshot.state, t, |d.outbox|);
    var d' := Written(d, env, actor, d.snapshot.state, t, |d.outbox|);
    var n := |d.receipts|;
    EarlierPrefix(d.receipts, r, n);
    assert d.receipts[..n] == d.receipts && d'.receipts[..n + 1] == d'.receipts;
    AllEventsOfMore(d.receipts, r);
    assert |Events(d.outbox)| == |d.outbox|;
    AppendedFits(d', n, t);
  }

  lemma AppendedFits(d: MatchDocuments, i: nat, t: Transition)
    requires i < |d.receipts| && d.receipts[i].hash.command == d.receipts[i].command
    requires Execute(Folded(d, i), d.receipts[i].actor, d.receipts[i].command, d.receipts[i].createdAt) == Some(t)
    requires d.receipts[i].expectedVersion == d.receipts[i].previousVersion == i
    requires d.receipts[i].resultingVersion == i + 1
    requires d.receipts[i].state == t.state == Folded(d, i + 1) && d.receipts[i].createdAt <= d.snapshot.updatedAt
    requires d.receipts[i].events == Numbered(t.events, |AllEvents(d.receipts[..i])|, i + 1, d.receipts[i].createdAt)
    ensures ReceiptFits(d, i)
  {
    hide Execute, StateOf, RunOf, AllEvents, Numbered;
  }

  lemma OutboxGrows(d: MatchDocuments, r: Receipt, kinds: seq<EventType>)
    requires Events(d.outbox) == AllEvents(d.receipts)
    requires forall k | 0 <= k < |d.outbox| :: d.outbox[k].event.sequence == k + 1
    requires r.events == Numbered(kinds, |d.outbox|, r.resultingVersion, r.createdAt)
    ensures var outbox := d.outbox + Pending(r.events);
            && Events(outbox) == AllEvents(d.receipts + [r])
            && forall k | 0 <= k < |outbox| :: outbox[k].event.sequence == k + 1
  {
    AllEventsOfMore(d.receipts, r);
    assert Events(d.outbox + Pending(r.events)) == Events(d.outbox) + r.events;
  }

  /** The commit of a command that read the current snapshot keeps the documents consistent. */
  lemma CommitKeepsConsistent(d: MatchDocuments, env: Envelope, actor: Actor, t: Transition)
    requires Consistent(d) && env.expectedVersion == |d.receipts|
    requires Execute(d.snapshot.state, actor, env.command, env.occurredAt) == Some(t)
    requires Commits(d, env, actor, d.snapshot.state, t, |d.outbox|)
    ensures Consistent(Written(d, env, actor, d.snapshot.state, t, |d.outbox|))
  {
    hide Execute, ValidateState, AllEvents, Events, ReceiptFits, ProjectionOf, Numbered, Pending, Folded,
      RunOf, Committed;
    var d' := Written(d, env, actor, d.snapshot.state, t, |d.outbox|);
    var r := NewReceipt(env, actor, d.snapshot.state, t, |d.outbox|);
    NewReceiptFits(d, env, actor, t);
    OutboxGrows(d, r, t.events);
    forall i: nat | i < |d'.receipts| ensures ReceiptFits(d', i) {
      if i < |d.receipts| { FitsStill(d, d', r, i); }
    }
    forall i | 0 <= i < |d.receipts| ensures d.receipts[i].createdAt <= env.occurredAt { FitsInTime(d, i); }
  }

  lemma FitsInTime(d: MatchDocuments, i: nat)
    requires i < |d.receipts| && ReceiptFits(d, i)
    ensures d.receipts[i].createdAt <= d.snapshot.updatedAt && d.receipts[i].resultingVersion == i + 1
    ensures d.receipts[i].state == Folded(d, i + 1) && d.receipts[i].expectedVersion == i
    ensures d.receipts[i].hash.command == d.receipts[i].command
  {
    hide Execute, StateOf, RunOf, AllEvents, Numbered;
  }
}
