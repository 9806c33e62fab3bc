/** The gateway's queries and the loop that advances `next` (internal/realtime/gateway.go
    213-264, internal/persistence/command_store.go 314-382). Each poll sees the documents of
    its moment, and Gateway says that those only grow. */
module GatewayLoop {
  import opened MatchModel
  import opened Rules
  import opened Validation
  import opened CommandDocuments
  import opened Gateway
  import opened MatchAggregate
  import opened Recovery
  import R = Runs
  import P = CommandProtocol

  method LatestSequenceAtVersion(outbox: seq<OutboxDocument>, version: nat) returns (latest: nat)
    ensures latest == LatestAt(outbox, version)
  {
    latest := 0;
    for i := 0 to |outbox|
      invariant latest == LatestAt(outbox[..i], version)
    {
      assert outbox[..i + 1][..i] == outbox[..i];
      var event := outbox[i].event;
      if event.version <= version && latest < event.sequence { latest := event.sequence; }
    }
    assert outbox[..|outbox|] == outbox;
  }

  /** The event with the smallest sequence beyond one. */
  method NextAfter(events: seq<CommittedEvent>, after: nat) returns (found: Option<CommittedEvent>)
    ensures found.None? ==> forall e | e in events :: e.sequence <= after
    ensures found.Some? ==> found.value in events && found.value.sequence > after
    ensures found.Some? ==> forall e | e in events && e.sequence > after :: found.value.sequence <= e.sequence
  {
    found := None;
    for i := 0 to |events|
      invariant found.None? ==> forall k | 0 <= k < i :: events[k].sequence <= after
      invariant found.Some? ==> found.value in events && found.value.sequence > after
      invariant found.Some? ==> forall k | 0 <= k < i && events[k].sequence > after :: found.value.sequence <= events[k].sequence
    {
      if events[i].sequence > after && (found.None? || events[i].sequence < found.value.sequence) {
        found := Some(events[i]);
      }
    }
  }

  predicate OneEach(events: seq<CommittedEvent>) {
    forall x, y | x in events && y in events && x.sequence == y.sequence :: x == y
  }

  /** ListEventsAfter: sorted by sequence and cut off at the limit. The index on sequences is
      unique. */
  method ListEventsAfter(events: seq<CommittedEvent>, after: nat, limit: nat) returns (batch: seq<CommittedEvent>)
    requires OneEach(events)
    ensures Lists(events, after, limit, batch)
  {
    batch := [];
    var last := after;
    while |batch| < limit
      invariant |batch| <= limit && last >= after
      invariant forall i, j | 0 <= i < j < |batch| :: batch[i].sequence < batch[j].sequence
      invariant forall e | e in batch :: e in events && after < e.sequence <= last
      invariant forall e | e in events && after < e.sequence <= last :: e in batch
      invariant |batch| == limit ==> forall i | 0 <= i < |batch| :: batch[i].sequence <= last
      decreases limit - |batch|
    {
      var found := NextAfter(events, last);
      if found.None? { return; }
      ghost var before := batch;
      batch := batch + [found.value];
      forall e | e in events && after < e.sequence <= found.value.sequence ensures e in batch {
        if e.sequence <= last { assert e in before; }
      }
      last := found.value.sequence;
    }
  }

  /** LoadStateAtVersion: the receipt's state, checked again. */
  method LoadStateAtVersion(d: MatchDocuments, version: nat) returns (s: Option<State>)
    ensures s.Some? ==> StoredAt(d, version, s.value) && s.value.version == version && ValidateState(s.value)
    ensures Consistent(d) && 1 <= version <= |d.receipts| ==> s == Some(Folded(d, version))
  {
    hide ValidateState, Consistent, Folded, StoredAt;
    s := None;
    if version == 0 { return; }
    var i := 0;
    while i < |d.receipts| && d.receipts[i].resultingVersion != version
      invariant 0 <= i <= |d.receipts| && forall k | 0 <= k < i :: d.receipts[k].resultingVersion != version
    {
      i := i + 1;
    }
    if Consistent(d) && version <= |d.receipts| { P.VersionIsStored(d, version); }
    if i == |d.receipts| { return; }
    var m := new Match(d.receipts[i].state);
    var ok := CheckState(m);
    if ok && d.receipts[i].state.version == version {
      FoundIsStored(d, version, i);
      s := Some(d.receipts[i].state);
    }
    if Consistent(d) && version <= |d.receipts| { FirstReceiptIsIt(d, version, i); }
  }

  lemma FoundIsStored(d: MatchDocuments, version: nat, i: nat)
    requires version != 0 && i < |d.receipts| && d.receipts[i].resultingVersion == version
    requires ValidateState(d.receipts[i].state) && d.receipts[i].state.version == version
    ensures StoredAt(d, version, d.receipts[i].state)
  {
    hide ValidateState;
  }

  lemma FirstReceiptIsIt(d: MatchDocuments, version: nat, i: nat)
    requires Consistent(d) && 1 <= version <= |d.receipts| && i < |d.receipts|
    requires d.receipts[i].resultingVersion == version
    ensures i == version - 1 && d.receipts[i].state == Folded(d, version)
    ensures ValidateState(d.receipts[i].state) && d.receipts[i].state.version == version
  {
    hide Execute, R.StateOf, R.Committed, AllEvents, Events, Numbered, ValidateState;
    assert ReceiptFits(d, i);
    P.VersionIsStored(d, version);
  }

  class Subscription {
    var next: nat
    var sent: seq<Message>
    var open: bool

    /** What has been written so far is an exact stream of these documents. */
    ghost predicate UpToDate(d: MatchDocuments)
      reads this
    {
      open && ExactStream(d, sent) && next == sent[0].sequence + |sent|
    }

    /** Subscribing: load the snapshot, find its baseline, write it. The baseline is read
        later, when more may have been committed. */
    constructor (s: State, d: MatchDocuments)
      requires Consistent(d) && s.version <= |d.receipts| && s == Folded(d, s.version)
      ensures UpToDate(d) && sent == [SnapshotSent(s.version, EventsUpTo(d, s.version), s)]
    {
      hide Consistent, Folded, EventsUpTo;
      var baseline := LatestSequenceAtVersion(d.outbox, s.version);
      BaselineIsExact(d, s.version);
      next, sent, open := baseline + 1, [SnapshotSent(s.version, baseline, s)], true;
    }

    /** One listed event: skipped if it is old, written with its state if it is the next, and
        otherwise the end of the stream. In consistent documents the next event is written. */
    method Deliver(d: MatchDocuments, event: CommittedEvent)
      modifies this
      ensures !old(open) || event.sequence < old(next) ==> next == old(next) && sent == old(sent) && open == old(open)
      ensures old(open) && event.sequence > old(next) ==> !open && next == old(next) && sent == old(sent) + [GapSent]
      ensures old(open) && event.sequence == old(next) ==>
                if open then
                  next == old(next) + 1 && exists s :: StoredAt(d, event.version, s) && sent == old(sent) + [EventSent(event, s)]
                else next == old(next) && sent == old(sent) + [StateUnavailableSent]
      ensures old(open) && old(UpToDate(d)) && Consistent(d) && old(next) <= |d.outbox| && event == d.outbox[old(next) - 1].event ==>
                UpToDate(d) && old(sent) <= sent && |sent| == |old(sent)| + 1 && next == old(next) + 1
    {
      hide Consistent, ExactStream, Folded, StoredAt;
      if UpToDate(d) { StreamFits(d, sent, next); }
      ghost var expected := UpToDate(d) && Consistent(d) && next <= |d.outbox| && event == d.outbox[next - 1].event;
      if expected { EventHasVersion(d, next - 1); }
      if !open || event.sequence < next { return; }
      if event.sequence != next {
        sent, open := sent + [GapSent], false;
        return;
      }
      var s := LoadStateAtVersion(d, event.version);
      if s.None? {
        sent, open := sent + [StateUnavailableSent], false;
        return;
      }
      if expected { StreamGoesOn(d, sent, next, event); }
      sent := sent + [EventSent(event, s.value)];
      next := next + 1;
    }

    /** One tick of the loop: the events listed after the last one written are delivered, as
        many as wait and the batch allows. */
    method Poll(d: MatchDocuments)
      requires next >= 1 && OneEach(Events(d.outbox))
      modifies this
      ensures old(UpToDate(d)) && Consistent(d) ==>
                && UpToDate(d) && old(sent) <= sent
                && |sent| == |old(sent)| + (if |d.outbox| - (old(next) - 1) < 100 then |d.outbox| - (old(next) - 1) else 100)
    {
      hide Consistent, UpToDate, Folded, EventsUpTo, Lists, StoredAt, Events, ExactStream;
      var events := ListEventsAfter(Events(d.outbox), next - 1, BATCH);
      ghost var exact, first := UpToDate(d) && Consistent(d), next;
      if exact {
        ListedIsStretch(d, this, events);
        UpToDateIsOpen(d, this);
      }
      for i := 0 to |events|
        invariant exact ==> UpToDate(d) && old(sent) <= sent && |sent| == |old(sent)| + i && next == first + i
      {
        if exact { UpToDateIsOpen(d, this); }
        Deliver(d, events[i]);
      }
    }
  }

  lemma UpToDateIsOpen(d: MatchDocuments, x: Subscription)
    requires x.UpToDate(d)
    ensures x.open
  {
    hide ExactStream;
  }

  // The batch of an up-to-date subscription is the stretch of events that waits.
  lemma ListedIsStretch(d: MatchDocuments, x: Subscription, events: seq<CommittedEvent>)
    requires x.UpToDate(d) && Consistent(d) && x.next >= 1 && Lists(Events(d.outbox), x.next - 1, BATCH, events)
    ensures |events| == if |d.outbox| - (x.next - 1) < BATCH then |d.outbox| - (x.next - 1) else BATCH
    ensures forall i | 0 <= i < |events| :: x.next + i <= |d.outbox| && events[i] == d.outbox[x.next + i - 1].event
  {
    hide Consistent, ExactStream, Folded, EventsUpTo, Lists, StoredAt, Events;
    StreamFits(d, x.sent, x.next);
    ReceiptsAreTagged(d);
    BatchIsStretch(Events(d.outbox), x.next - 1, BATCH, events);
    forall i | 0 <= i < |events| ensures events[i] == d.outbox[x.next + i - 1].event {
      EventsAt(d.outbox, x.next - 1 + i);
    }
  }

  lemma StreamFits(d: MatchDocuments, sent: seq<Message>, next: nat)
    requires ExactStream(d, sent) && next == sent[0].sequence + |sent|
    ensures sent != [] && sent[0].SnapshotSent? && 1 <= next <= |d.outbox| + 1
  {
    hide Follows, Folded, EventsUpTo;
  }

  lemma StreamGoesOn(d: MatchDocuments, sent: seq<Message>, next: nat, event: CommittedEvent)
    requires ExactStream(d, sent) && next == sent[0].sequence + |sent| && next <= |d.outbox|
    requires event == d.outbox[next - 1].event && 1 <= event.version <= |d.receipts|
    ensures ExactStream(d, sent + [EventSent(event, Folded(d, event.version))])
  {
    hide Folded, EventsUpTo;
    var more := sent + [EventSent(event, Folded(d, event.version))];
    forall i | 1 <= i < |more| ensures Follows(d, more[0].sequence, i, more[i]) {
      if i < |sent| { assert Follows(d, sent[0].sequence, i, sent[i]); }
    }
  }
}
