/** The realtime gateway (internal/realtime/gateway.go 213-264) beside a store that goes on
    committing: one snapshot, then every later event once and in order. */
module Gateway {
  import opened MatchModel
  import opened Rules
  import opened Validation
  import opened CommandDocuments
  import opened Runs
  import P = CommandProtocol

  const BATCH := 100

  // ----- the three queries (command_store.go 314-382)

  /** LatestEventSequenceAtVersion: the largest sequence of an event up to a version. */
  function LatestAt(outbox: seq<OutboxDocument>, version: nat): nat {
    if outbox == [] then 0
    else
      var rest, last := LatestAt(outbox[..|outbox| - 1], version), outbox[|outbox| - 1].event;
      if last.version <= version && rest < last.sequence then last.sequence else rest
  }

  /** ListEventsAfter: the events beyond a sequence, ascending, cut off at the limit. */
  ghost predicate Lists(events: seq<CommittedEvent>, after: nat, limit: nat, batch: seq<CommittedEvent>) {
    && |batch| <= limit
    && (forall i, j | 0 <= i < j < |batch| :: batch[i].sequence < batch[j].sequence)
    && (forall e | e in batch :: e in events && e.sequence > after)
    && (forall e | e in events && e.sequence > after ::
          e in batch || (|batch| == limit && forall i | 0 <= i < |batch| :: batch[i].sequence < e.sequence))
  }

  /** LoadStateAtVersion finds this state. */
  ghost predicate StoredAt(d: MatchDocuments, version: nat, s: State) {
    && version != 0 && s.version == version && ValidateState(s)
    && exists i :: 0 <= i < |d.receipts| && d.receipts[i].resultingVersion == version && d.receipts[i].state == s
  }

  // ----- one subscription

  datatype Message =
    | SnapshotSent(version: nat, sequence: nat, state: State)
    | EventSent(event: CommittedEvent, state: State)
    | GapSent
    | StateUnavailableSent

  datatype Session =
    | Subscribing(id: MatchId)
    | Loaded(id: MatchId, state: State)
    | Streaming(id: MatchId, next: nat, batch: seq<CommittedEvent>, sent: seq<Message>)
    | Closed(id: MatchId, sent: seq<Message>)

  ghost predicate SessionStep(store: P.Store, g: Session, g': Session) {
    match g
    case Subscribing(id) =>
      && id in store && P.Decodes(store[id].snapshot) && g' == Loaded(id, store[id].snapshot.state)
    case Loaded(id, s) =>
      && id in store
      && var baseline := LatestAt(store[id].outbox, s.version);
         g' == Streaming(id, baseline + 1, [], [SnapshotSent(s.version, baseline, s)])
    case Streaming(id, next, batch, sent) =>
      if id !in store then false
      else if batch == [] then
        next > 0 && exists more :: Lists(Events(store[id].outbox), next - 1, BATCH, more) && g' == g.(batch := more)
      else Delivers(store[id], g, g')
    case Closed(_, _) => false
  }

  ghost predicate Delivers(d: MatchDocuments, g: Session, g': Session)
    requires g.Streaming? && g.batch != []
  {
    var e := g.batch[0];
    if e.sequence < g.next then g' == g.(batch := g.batch[1..])
    else if e.sequence != g.next then g' == Closed(g.id, g.sent + [GapSent])
    else if exists s :: StoredAt(d, e.version, s) then
      exists s :: StoredAt(d, e.version, s) && g' == Streaming(g.id, g.next + 1, g.batch[1..], g.sent + [EventSent(e, s)])
    else g' == Closed(g.id, g.sent + [StateUnavailableSent])
  }

  // ----- the queries on consistent documents

  /** The number of events committed up to a version. */
  function EventsUpTo(d: MatchDocuments, version: nat): nat
    requires version <= |d.receipts|
  {
    |AllEvents(d.receipts[..version])|
  }

  predicate Tagged(receipts: seq<Receipt>) {
    forall i, e | 0 <= i < |receipts| && e in receipts[i].events :: e.version == i + 1
  }

  lemma ReceiptsAreTagged(d: MatchDocuments)
    requires Consistent(d)
    ensures Tagged(d.receipts) && Events(d.outbox) == AllEvents(d.receipts)
    ensures forall k | 0 <= k < |d.outbox| :: Events(d.outbox)[k].sequence == k + 1
  {
    hide Execute, StateOf, RunOf, AllEvents, Committed, ProjectionOf;
    forall i: nat, e | i < |d.receipts| && e in d.receipts[i].events ensures e.version == i + 1 {
      assert ReceiptFits(d, i);
    }
  }

  /** The events of the first versions are exactly the first events. */
  lemma {:induction false} EventsAreGrouped(receipts: seq<Receipt>, n: nat)
    requires Tagged(receipts) && n <= |receipts|
    ensures AllEvents(receipts[..n]) <= AllEvents(receipts)
    ensures forall k | 0 <= k < |AllEvents(receipts)| ::
              (AllEvents(receipts)[k].version <= n <==> k < |AllEvents(receipts[..n])|)
              && 1 <= AllEvents(receipts)[k].version <= |receipts|
  {
    if receipts == [] {
    } else {
      var front, last := receipts[..|receipts| - 1], receipts[|receipts| - 1];
      EventsAreGrouped(front, if n < |receipts| then n else |front|);
      assert n < |receipts| ==> front[..n] == receipts[..n];
      assert n == |receipts| ==> receipts[..n] == receipts && front[..|front|] == front;
      forall k | |AllEvents(front)| <= k < |AllEvents(receipts)|
        ensures AllEvents(receipts)[k].version == |receipts|
      {
        assert AllEvents(receipts)[k] == last.events[k - |AllEvents(front)|];
      }
    }
  }

  lemma {:induction false} LatestAtCounts(outbox: seq<OutboxDocument>, version: nat, n: nat)
    requires forall k | 0 <= k < |outbox| :: outbox[k].event.sequence == k + 1 && (outbox[k].event.version <= version <==> k < n)
    ensures LatestAt(outbox, version) == if |outbox| < n then |outbox| else n
  {
    if outbox != [] { LatestAtCounts(outbox[..|outbox| - 1], version, n); }
  }

  /** The baseline of a snapshot is the last event of its version, whatever came since. */
  lemma BaselineIsExact(d: MatchDocuments, version: nat)
    requires Consistent(d) && version <= |d.receipts|
    ensures LatestAt(d.outbox, version) == EventsUpTo(d, version) <= |d.outbox|
  {
    hide Consistent, AllEvents;
    ReceiptsAreTagged(d);
    EventsAreGrouped(d.receipts, version);
    forall k | 0 <= k < |d.outbox|
      ensures d.outbox[k].event.sequence == k + 1
      ensures (d.outbox[k].event.version <= version <==> k < EventsUpTo(d, version))
    {
      assert Events(d.outbox)[k] == d.outbox[k].event;
    }
    LatestAtCounts(d.outbox, version, EventsUpTo(d, version));
  }

  predicate GapFree(events: seq<CommittedEvent>) { forall k | 0 <= k < |events| :: events[k].sequence == k + 1 }

  lemma AscendingOrder(batch: seq<CommittedEvent>, x: nat, y: nat)
    requires forall i, j | 0 <= i < j < |batch| :: batch[i].sequence < batch[j].sequence
    requires x < |batch| && y < |batch|
    ensures x < y <==> batch[x].sequence < batch[y].sequence
  {}

  lemma {:induction false} BatchElement(events: seq<CommittedEvent>, after: nat, limit: nat, batch: seq<CommittedEvent>, i: nat)
    requires GapFree(events) && Lists(events, after, limit, batch) && i < |batch|
    ensures after + i < |events| && batch[i] == events[after + i]
  {
    if i > 0 { BatchElement(events, after, limit, batch, i - 1); }
    assert batch[i] in batch;
    var k :| 0 <= k < |events| && events[k] == batch[i];
    assert after + i <= k;
    var e := events[after + i];
    assert e in events && e.sequence == after + i + 1;
    assert e in batch;
    var j :| 0 <= j < |batch| && batch[j] == e;
    if i > 0 { AscendingOrder(batch, i - 1, j); }
    AscendingOrder(batch, i, j);
  }

  /** A batch is the next stretch of the event sequence, as long as the limit allows. */
  lemma BatchIsStretch(events: seq<CommittedEvent>, after: nat, limit: nat, batch: seq<CommittedEvent>)
    requires GapFree(events) && Lists(events, after, limit, batch) && after <= |events|
    ensures |batch| == if |events| - after < limit then |events| - after else limit
    ensures batch == events[after..after + |batch|]
  {
    forall i: nat | i < |batch| ensures after + i < |events| && batch[i] == events[after + i] {
      BatchElement(events, after, limit, batch, i);
    }
    if |batch| > 0 { BatchElement(events, after, limit, batch, |batch| - 1); }
    if |batch| < limit && after < |events| {
      var e := events[|events| - 1];
      assert e in events && e in batch;
      var j :| 0 <= j < |batch| && batch[j] == e;
      BatchElement(events, after, limit, batch, j);
    }
  }

  lemma StateIsStored(d: MatchDocuments, version: nat)
    requires Consistent(d) && 1 <= version <= |d.receipts|
    ensures StoredAt(d, version, Folded(d, version))
    ensures forall s :: StoredAt(d, version, s) ==> s == Folded(d, version)
  {
    hide Execute, StateOf, Committed, AllEvents, Events, Numbered, ValidateState;
    P.VersionIsStored(d, version);
    forall s | StoredAt(d, version, s) ensures s == Folded(d, version) {
      var i: nat :| i < |d.receipts| && d.receipts[i].resultingVersion == version && d.receipts[i].state == s;
      assert ReceiptFits(d, i);
    }
  }

  // ----- the invariant of a subscription

  /** The i-th message after the snapshot carries the i-th event after the baseline and the
      state committed with that event's version. */
  ghost predicate Follows(d: MatchDocuments, baseline: nat, i: nat, m: Message)
    requires 1 <= i && baseline + i - 1 < |d.outbox|
  {
    var e := d.outbox[baseline + i - 1].event;
    1 <= e.version <= |d.receipts| && m == EventSent(e, Folded(d, e.version))
  }

  /** The stream so far: a snapshot at a version, then every event beyond its baseline. */
  ghost predicate ExactStream(d: MatchDocuments, sent: seq<Message>) {
    && sent != [] && sent[0].SnapshotSent? && sent[0].version <= |d.receipts|
    && sent[0].state == Folded(d, sent[0].version) && sent[0].state.version == sent[0].version
    && sent[0].sequence == EventsUpTo(d, sent[0].version)
    && sent[0].sequence + |sent| - 1 <= |d.outbox|
    && forall i | 1 <= i < |sent| :: Follows(d, sent[0].sequence, i, sent[i])
  }

  ghost predicate Fits(store: P.Store, g: Session) {
    match g
    case Subscribing(_) => true
    case Loaded(id, s) => id in store && s.version <= |store[id].receipts| && s == Folded(store[id], s.version)
    case Streaming(id, next, batch, sent) =>
      && id in store && ExactStream(store[id], sent)
      && next == sent[0].sequence + |sent| && next - 1 + |batch| <= |store[id].outbox|
      && forall i | 0 <= i < |batch| :: batch[i] == store[id].outbox[next - 1 + i].event
    case Closed(_, _) => false
  }

  lemma EventHasVersion(d: MatchDocuments, k: nat)
    requires Consistent(d) && k < |d.outbox|
    ensures 1 <= d.outbox[k].event.version <= |d.receipts| && d.outbox[k].event.sequence == k + 1
  {
    hide AllEvents, Consistent;
    ReceiptsAreTagged(d);
    EventsAreGrouped(d.receipts, |d.receipts|);
    assert Events(d.outbox)[k] == d.outbox[k].event;
  }

  lemma DeliveryFits(store: P.Store, g: Session, g': Session)
    requires Fits(store, g) && g.Streaming? && g.batch != [] && Consistent(store[g.id]) && Delivers(store[g.id], g, g')
    ensures Fits(store, g') && g'.Streaming? && |g'.sent| == |g.sent| + 1
  {
    hide Consistent, Folded, StoredAt, EventsUpTo;
    var d, e := store[g.id], g.batch[0];
    EventHasVersion(d, g.next - 1);
    StateIsStored(d, e.version);
    assert g'.sent == g.sent + [EventSent(e, Folded(d, e.version))];
    forall i | 1 <= i < |g'.sent| ensures Follows(d, g'.sent[0].sequence, i, g'.sent[i]) {
      if i < |g.sent| { assert g'.sent[i] == g.sent[i]; }
    }
  }

  lemma JoiningFits(store: P.Store, g: Session, g': Session)
    requires (g.Subscribing? || g.Loaded?) && Fits(store, g) && SessionStep(store, g, g')
    requires g.id in store ==> Consistent(store[g.id])
    ensures Fits(store, g')
  {
    hide Consistent, Folded, EventsUpTo, P.Decodes;
    P.SnapshotOfConsistent(store[g.id]);
    if g.Loaded? { BaselineIsExact(store[g.id], g.state.version); }
  }

  lemma PollingFits(store: P.Store, g: Session, g': Session)
    requires g.Streaming? && g.batch == [] && Fits(store, g) && Consistent(store[g.id]) && SessionStep(store, g, g')
    ensures Fits(store, g') && g'.Streaming?
    ensures g.next - 1 < |store[g.id].outbox| ==> g'.batch != []
  {
    hide Consistent, ExactStream, Delivers, Folded, EventsUpTo, LatestAt, P.Decodes, StoredAt, Lists, Events;
    var d := store[g.id];
    ReceiptsAreTagged(d);
    assert g.sent != [] && g.sent[0].SnapshotSent? by { StreamStarts(d, g.sent); }
    BatchIsStretch(Events(d.outbox), g.next - 1, BATCH, g'.batch);
    forall i | 0 <= i < |g'.batch| ensures g'.batch[i] == d.outbox[g.next - 1 + i].event {
      EventsAt(d.outbox, g.next - 1 + i);
    }
  }

  lemma EventsAt(outbox: seq<OutboxDocument>, k: nat)
    requires k < |outbox|
    ensures Events(outbox)[k] == outbox[k].event
  {}

  lemma StreamStarts(d: MatchDocuments, sent: seq<Message>)
    requires ExactStream(d, sent)
    ensures sent != [] && sent[0].SnapshotSent?
  {
    hide Follows, Folded, EventsUpTo;
  }

  lemma SessionStepFits(store: P.Store, g: Session, g': Session)
    requires Fits(store, g) && SessionStep(store, g, g') && (g.id in store ==> Consistent(store[g.id]))
    ensures Fits(store, g')
  {
    hide Consistent, ExactStream, Delivers;
    if g.Streaming? {
      if g.batch == [] { PollingFits(store, g, g'); } else { DeliveryFits(store, g, g'); }
    } else {
      JoiningFits(store, g, g');
    }
  }

  lemma StreamStaysExact(d: MatchDocuments, d': MatchDocuments, sent: seq<Message>)
    requires ExactStream(d, sent) && P.Grew(d, d')
    ensures ExactStream(d', sent)
  {
    hide Folded;
    var v := sent[0].version;
    P.GrewKeepsFolds(d, d', v);
    assert d'.receipts[..v] == d.receipts[..v];
    forall i | 1 <= i < |sent| ensures Follows(d', sent[0].sequence, i, sent[i]) {
      assert Follows(d, sent[0].sequence, i, sent[i]);
      P.GrewKeepsFolds(d, d', d.outbox[sent[0].sequence + i - 1].event.version);
    }
  }

  lemma GrowthFits(store: P.Store, store': P.Store, g: Session)
    requires Fits(store, g) && P.StoreGrew(store, store')
    ensures Fits(store', g)
  {
    hide ExactStream, Folded;
    if g.Loaded? {
      P.GrewKeepsFolds(store[g.id], store'[g.id], g.state.version);
    } else if g.Streaming? {
      StreamStaysExact(store[g.id], store'[g.id], g.sent);
      var d, d' := store[g.id], store'[g.id];
      StreamStarts(d, g.sent);
      forall i | 0 <= i < |g.batch| ensures g.batch[i] == d'.outbox[g.next - 1 + i].event {
        assert g.batch[i] == d.outbox[g.next - 1 + i].event;
      }
    }
  }

  // ----- a subscription inside every behaviour of the store

  datatype Stream =
    | Opened(behaviour: P.Behaviour, session: Session)
    | StoreMoved(before: Stream, behaviour: P.Behaviour, session: Session)
    | SessionMoved(before: Stream, behaviour: P.Behaviour, session: Session)

  ghost predicate Possible(x: Stream) {
    && P.Possible(x.behaviour)
    && match x
       case Opened(_, g) => g.Subscribing?
       case StoreMoved(before, b, g) => Possible(before) && b.Extend? && b.before == before.behaviour && g == before.session
       case SessionMoved(before, b, g) =>
         Possible(before) && b == before.behaviour && SessionStep(b.world.store, before.session, g)
  }

  /** Under any interleaving of commits, publications and polls a subscriber has received a
      snapshot at some version and then the events baseline + 1, baseline + 2, ... without
      gap, duplicate or omission, each with the state committed at its own version. Neither
      EVENT_GAP nor a missing state ever closes the stream. */
  lemma {:induction false} EveryStreamIsExact(x: Stream)
    requires Possible(x)
    ensures Fits(x.behaviour.world.store, x.session) && !x.session.Closed?
    ensures x.session.Streaming? ==> ExactStream(x.behaviour.world.store[x.session.id], x.session.sent)
  {
    hide Fits, P.Possible, SessionStep, Consistent, P.Knows, P.Next;
    match x {
      case Opened(_, g) =>
        SubscribingFits(x.behaviour.world.store, g);
      case StoreMoved(before, b, g) =>
        EveryStreamIsExact(before);
        P.EveryBehaviourIsSound(b.before);
        ExtensionOf(b);
        P.StepIsSound(b.before.world, b.world, b.move);
        GrowthFits(b.before.world.store, b.world.store, g);
      case SessionMoved(before, b, g) =>
        EveryStreamIsExact(before);
        P.EveryBehaviourIsSound(b);
        SessionStepFits(b.world.store, before.session, g);
    }
    FittingIsOpen(x.behaviour.world.store, x.session);
  }

  lemma ExtensionOf(b: P.Behaviour)
    requires P.Possible(b) && b.Extend?
    ensures P.Possible(b.before) && P.Next(b.before.world, b.world, b.move)
  {
    hide P.Next;
  }

  lemma SubscribingFits(store: P.Store, g: Session)
    requires g.Subscribing?
    ensures Fits(store, g)
  {}

  lemma FittingIsOpen(store: P.Store, g: Session)
    requires Fits(store, g)
    ensures !g.Closed? && (g.Streaming? ==> g.id in store && ExactStream(store[g.id], g.sent))
  {
    hide ExactStream;
  }

  /** A poll never comes back empty while an event waits, and each delivery sends the next. */
  lemma PollsMakeProgress(x: Stream, g': Session)
    requires Possible(x) && x.session.Streaming? && SessionStep(x.behaviour.world.store, x.session, g')
    ensures g'.Streaming?
    ensures x.session.batch == [] && x.session.next - 1 < |x.behaviour.world.store[x.session.id].outbox| ==> g'.batch != []
    ensures x.session.batch != [] ==> |g'.sent| == |x.session.sent| + 1
  {
    hide P.Possible, Consistent, P.Knows, P.Next, ExactStream, Delivers;
    EveryStreamIsExact(x);
    P.EveryBehaviourIsSound(x.behaviour);
    if x.session.batch == [] {
      PollingFits(x.behaviour.world.store, x.session, g');
    } else {
      DeliveryFits(x.behaviour.world.store, x.session, g');
    }
  }
}
