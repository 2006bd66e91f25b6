/** The guarantees of the system, over every run from an initial state. */
module Theorems {
  import opened Domain
  import opened Serial
  import opened Protocol
  import C = CommandProof
  import P = PublisherProof
  import opened System

  lemma ReachableCommands(s0: State, run: seq<Action>, s: State)
    requires Init(s0) && Leads(s0, run, s)
    ensures C.CommandInv(s)
  {
    Reachable(s0, run, s);
  }

  lemma ReachableOutcomes(s0: State, run: seq<Action>, s: State)
    requires Init(s0) && Leads(s0, run, s)
    ensures TraceOfCalls(s) && OutcomesOk(s)
  {
    Reachable(s0, run, s);
  }

  lemma ReachablePublishers(s0: State, run: seq<Action>, s: State)
    requires Init(s0) && Leads(s0, run, s)
    ensures P.PublisherInv(s)
  {
    Reachable(s0, run, s);
  }

  lemma ReachableFailed(s0: State, run: seq<Action>, s: State)
    requires Init(s0) && Leads(s0, run, s)
    ensures FailedAreLegacy(s0.outbox, s.outbox)
  {
    Reachable(s0, run, s);
  }

  /** What the serial machine guarantees holds of the committed data. */
  lemma CommittedDataIsSerial(s0: State, run: seq<Action>, s: State)
    requires Init(s0) && Leads(s0, run, s)
    ensures SerialInv(View(s0), View(s), s.trace)
  {
    Reachable(s0, run, s);
    InitIsFresh(s0);
    SerialTheorem(View(s0), s.trace, View(s));
  }

  lemma InitIsFresh(s0: State)
    requires Init(s0)
    ensures Fresh(View(s0))
  {
  }

  // ----- serializability -----

  /**
   * Whatever the interleaving, the committed trips, history and events are those of the serial machine running the
   * recorded commands in order, with the recorded verdicts.
   */
  lemma Serializability(s0: State, run: seq<Action>, s: State)
    requires Init(s0) && Leads(s0, run, s)
    ensures View(s) == Replay(View(s0), s.trace)
    ensures forall i :: 0 <= i < |s.trace| ==>
      Exec(Replay(View(s0), s.trace[..i]), s.trace[i].cmd, s.trace[i].now).verdict == s.trace[i].verdict
  {
    Reachable(s0, run, s);
  }

  /**
   * The record is that of the calls: each at most once, with its own command, as a success exactly if it was applied;
   * and the verdict decides how the call goes on and what it answers.
   */
  lemma RecordIsOfCalls(s0: State, run: seq<Action>, s: State, id: CallId)
    requires Init(s0) && Leads(s0, run, s) && id in s.calls
    ensures s.calls[id].pc.Finished? ==> (s.calls[id].pc.applied <==> exists i :: Recorded(s.trace, i, id, Success))
    ensures forall i :: 0 <= i < |s.trace| && s.trace[i].call == id ==>
      s.trace[i].cmd == s.calls[id].cmd && Settled(s.calls[id], s.trace[i].verdict)
    ensures forall i, j :: 0 <= i < j < |s.trace| ==> s.trace[i].call != s.trace[j].call
  {
    ReachableOutcomes(s0, run, s);
    assert OutcomeOk(s.calls[id], id, s.trace);
  }

  // ----- the outbox -----

  /** A trip has left draft exactly if its event is in the outbox; and that event is waiting or sent. */
  lemma NoEventLost(s0: State, run: seq<Action>, s: State, t: Uuid)
    requires Init(s0) && Leads(s0, run, s)
    ensures var id := PublishedEventId(t);
      && (t in s.trips && PastDraft(s.trips[t].status) <==> id in s.outbox)
      && (id in s.outbox ==> s.outbox[id].status == Pending || s.outbox[id].status == Sent)
      && (id in s.outbox ==> s.outbox[id].head.aggregateId == t)
      && (forall other ::
          other in s.outbox && other !in s0.outbox && s.outbox[other].head.aggregateId == t ==> other == id)
  {
    var id := PublishedEventId(t);
    ReachableFailed(s0, run, s);
    CommittedDataIsSerial(s0, run, s);
    assert id in View(s).events <==> id in s.outbox;
    forall other | other in s.outbox && other !in s0.outbox ensures OwnEvent(s, other) {
      OwnEventOfTrip(s0, run, s, other);
    }
    if id in s.outbox { OwnEventOfTrip(s0, run, s, id); }
  }

  /** Row `id` is the event of trip `id.space`, and carries the columns of the publish command that committed. */
  ghost predicate OwnEvent(s: State, id: Uuid) {
    && id.V5? && id == PublishedEventId(id.space) && id in s.outbox
    && exists i :: Publishes(s.trace, i, id.space) && s.outbox[id].head == HeadOf(s.trace[i].cmd, s.trace[i].now)
  }

  lemma OwnEventOfTrip(s0: State, run: seq<Action>, s: State, id: Uuid)
    requires Init(s0) && Leads(s0, run, s) && id in s.outbox && id !in s0.outbox
    ensures OwnEvent(s, id)
  {
    CommittedDataIsSerial(s0, run, s);
    assert id in View(s).events;
    assert id !in View(s0).events;
    var t := id.space;
    assert id == PublishedEventId(t);
    assert t in s.trips && PastDraft(s.trips[t].status);
    var i :| Publishes(s.trace, i, t);
    assert WrittenBy(View(s), s.trace[i], t);
    assert View(s).events[id] == s.outbox[id].head;
  }

  lemma EventIdsAreNotLegacy(s0: State, t: Uuid)
    requires Init(s0)
    ensures PublishedEventId(t) !in s0.outbox
  {
  }

  /**
   * Once a publish event is committed as sent, Kafka holds its message, unchanged and with matching key and headers.
   */
  lemma SentImpliesDelivered(s0: State, run: seq<Action>, s: State, t: Uuid)
    requires Init(s0) && Leads(s0, run, s) && P.IsSent(s.outbox, PublishedEventId(t))
    ensures var id := PublishedEventId(t);
      exists event, message ::
        && Unmarshal(s.outbox[id].head.payload) == Some(event)
        && LogEntry(id, message) in s.log
        && Unmarshal(message.value) == Some(event) && message.value == s.outbox[id].head.payload
        && message.key == t && message.eventId == id && event.eventId == id && event.tripId == t
        && message.eventType == event.eventType && message.correlationId == event.correlationId
        && message.causationId == event.causationId && message.traceParent == event.traceParent
  {
    var id := PublishedEventId(t);
    Reachable(s0, run, s);
    EventIdsAreNotLegacy(s0, t);
    OwnEventOfTrip(s0, run, s, id);
    assert P.Delivered(id, s.outbox[id].head, s.log);
    var event := Unmarshal(s.outbox[id].head.payload).value;
    assert LogEntry(id, ToMessage(event)) in s.log;
  }

  /**
   * All copies that Kafka ever gets under one trip event id are one message: that of the one publish that committed.
   */
  lemma LogIsAFunctionOfEventId(s0: State, run: seq<Action>, s: State, entry: LogEntry, other: LogEntry)
    requires Init(s0) && Leads(s0, run, s)
    requires entry in s.log && other in s.log
    ensures entry.row == other.row ==> entry.message == other.message
    ensures entry.message.eventId.V5? ==> entry.row == entry.message.eventId
    ensures entry.message.eventId.V5? && other.message.eventId == entry.message.eventId ==>
      other.message == entry.message
    ensures entry.message.eventId.V5? ==> exists i :: var trace := s.trace;
      && Publishes(trace, i, entry.message.key)
      && Unmarshal(HeadOf(trace[i].cmd, trace[i].now).payload).Some?
      && entry.message == ToMessage(Unmarshal(HeadOf(trace[i].cmd, trace[i].now).payload).value)
  {
    Reachable(s0, run, s);
    EntryOfOwnRow(s0, run, s, entry);
    EntryOfOwnRow(s0, run, s, other);
    if entry.message.eventId.V5? {
      var i :| Publishes(s.trace, i, entry.row.space)
        && s.outbox[entry.row].head == HeadOf(s.trace[i].cmd, s.trace[i].now);
      assert Publishes(s.trace, i, entry.message.key);
    }
  }

  lemma EntryOfOwnRow(s0: State, run: seq<Action>, s: State, entry: LogEntry)
    requires Init(s0) && Leads(s0, run, s) && entry in s.log
    ensures entry.message.eventId.V5? ==> entry.row == entry.message.eventId && OwnEvent(s, entry.row)
  {
    Reachable(s0, run, s);
    assert P.LogFromOutbox(s.outbox, s.log);
    if entry.row in s0.outbox {
      CommittedDataIsSerial(s0, run, s);
      assert entry.row in View(s0).events;
      assert View(s).events[entry.row] == View(s0).events[entry.row];
      assert Legacy(entry.row, s0.outbox[entry.row]);
    } else {
      OwnEventOfTrip(s0, run, s, entry.row);
    }
  }

  /**
   * Acknowledged Kafka calls for a row: one if it is committed as sent, one per lost transaction, one if the
   * transaction of some publisher that has the acknowledgement is still open.
   */
  lemma DuplicateAccounting(s0: State, run: seq<Action>, s: State, id: Uuid)
    requires Init(s0) && Leads(s0, run, s)
    ensures s.acks[id] == P.One(P.IsSent(s.outbox, id)) + s.lost[id] + P.One(P.OpenAck(s.pubs, s.eventLocks, id))
      && s.acks[id] <= 1 + s.lost[id]
    ensures P.OpenAck(s.pubs, s.eventLocks, id) <==> exists p :: p in s.pubs && id in s.pubs[p].acked
  {
    ReachablePublishers(s0, run, s);
    assert P.AckAccounted(s, id);
    forall p | p in s.pubs && id in s.pubs[p].acked ensures P.OpenAck(s.pubs, s.eventLocks, id) {
      P.AcksSeen(s.pubs[p], p, s.outbox, s.eventLocks, s.log, id);
    }
    if P.OpenAck(s.pubs, s.eventLocks, id) {
      var p := s.eventLocks[id];
      P.AcksSeen(s.pubs[p], p, s.outbox, s.eventLocks, s.log, id);
    }
  }

  /** Once sent, a row keeps every column in whatever happens next, although no UPDATE tests the status. */
  lemma SentRowsFrozen(s0: State, run: seq<Action>, s: State, later: seq<Action>, s': State, id: Uuid)
    requires Init(s0) && Leads(s0, run, s) && Leads(s, later, s') && P.IsSent(s.outbox, id)
    ensures id in s'.outbox && s'.outbox[id] == s.outbox[id]
  {
    LaterAdvances(s0, run, s, later, s');
  }

  /** What one publisher has picked, no other has; and what it picked is pending for as long as it holds it. */
  lemma BatchesDisjoint(s0: State, run: seq<Action>, s: State, p: PubId, q: PubId, i: nat, j: nat)
    requires Init(s0) && Leads(s0, run, s)
    requires p in s.pubs && q in s.pubs && i < |s.pubs[p].batch| && j < |s.pubs[q].batch| && (p, i) != (q, j)
    ensures s.pubs[p].batch[i].id != s.pubs[q].batch[j].id
      && s.pubs[p].batch[i].id in s.outbox && s.outbox[s.pubs[p].batch[i].id] == s.pubs[p].batch[i].row
      && s.pubs[p].batch[i].row.status == Pending
  {
    ReachablePublishers(s0, run, s);
    assert P.PubOk(s.pubs[p], p, s.outbox, s.eventLocks, s.log) && P.PubOk(s.pubs[q], q, s.outbox, s.eventLocks, s.log);
  }

  /**
   * A batch commits as a whole or not at all: on commit exactly the acknowledged rows become sent and exactly the
   * others gain an attempt; on any other end the table is untouched.  The log keeps what was sent either way.
   */
  lemma BatchAllOrNothing(s0: State, run: seq<Action>, s: State, p: PubId, a: PubAction)
    requires Init(s0) && Leads(s0, run, s) && p in s.pubs && PubEnabled(s, p, a)
    ensures var s' := PubNext(s, p, a);
      && s.log <= s'.log
      && if AppliesBatch(a)
         then P.CommittedBatch(s.outbox, s.pubs[p], s'.outbox)
           && |PendingIds(s'.outbox)| == |PendingIds(s.outbox)| - |s.pubs[p].acked|
         else s'.outbox == s.outbox
  {
    ReachablePublishers(s0, run, s);
    if AppliesBatch(a) {
      AppliedIsEndTx(s, p, a);
      CommitCounts(s, p);
    }
  }

  /** The transaction of the publisher ends without effect: rolled back, lost in its commit, or crashed before it. */
  predicate EndsInVain(a: PubAction) {
    a.RollbackTx? || (a.CommitTx? && a.result == CommitErrorLost) || (a.CrashPub? && !a.applied)
  }

  /**
   * A transaction that ends in vain leaves the outbox as it was, pending rows and all, but what Kafka has acknowledged
   * stays: the message of every acknowledged row is in the log, and its acknowledgement is booked as lost, once.
   */
  lemma SendsSurviveRollback(s0: State, run: seq<Action>, s: State, p: PubId, a: PubAction)
    requires Init(s0) && Leads(s0, run, s) && p in s.pubs && PubEnabled(s, p, a) && EndsInVain(a)
    ensures var s' := PubNext(s, p, a);
      && s'.outbox == s.outbox && s'.log == s.log && s'.acks == s.acks
      && (forall id :: id in s.pubs[p].acked ==>
            id in s'.outbox && s'.outbox[id].status == Pending && P.Delivered(id, s'.outbox[id].head, s'.log))
      && (forall id :: s'.lost[id] == s.lost[id] + P.One(id in s.pubs[p].acked))
  {
    ReachablePublishers(s0, run, s);
    var pub, s' := s.pubs[p], PubNext(s, p, a);
    assert s'.outbox == s.outbox && s'.log == s.log && s'.acks == s.acks && s'.lost == s.lost + multiset(pub.acked);
    forall id | id in pub.acked
      ensures id in s.outbox && s.outbox[id].status == Pending && P.Delivered(id, s.outbox[id].head, s.log)
    {
      P.AcksSeen(pub, p, s.outbox, s.eventLocks, s.log, id);
    }
  }

  lemma AppliedIsEndTx(s: State, p: PubId, a: PubAction)
    requires PubEnabled(s, p, a) && AppliesBatch(a)
    ensures p in s.pubs && AllMarked(s.pubs[p]) && PubNext(s, p, a).outbox == s.outbox + s.pubs[p].writes
  {
  }

  lemma CommitCounts(s: State, p: PubId)
    requires P.PubsOk(s) && p in s.pubs && AllMarked(s.pubs[p])
    ensures var after := s.outbox + s.pubs[p].writes;
      P.CommittedBatch(s.outbox, s.pubs[p], after) && |PendingIds(after)| == |PendingIds(s.outbox)| - |s.pubs[p].acked|
  {
    P.CommitEffect(s, p);
    assert |PendingIds(s.outbox)| == |PendingIds(s.outbox) - s.pubs[p].acked| + |s.pubs[p].acked|;
  }

  /** Pending, sent and legacy rows are all the rows, for ever. */
  lemma RowsConserved(s0: State, run: seq<Action>, s: State)
    requires Init(s0) && Leads(s0, run, s)
    ensures |s.outbox| == |PendingIds(s.outbox)| + |IdsWith(s.outbox, Sent)| + |IdsWith(s0.outbox, Failed)|
  {
    ReachableFailed(s0, run, s);
    RowsSplit(s0.outbox, s.outbox);
  }

  lemma RowsSplit(outbox0: Outbox, outbox: Outbox)
    requires FailedAreLegacy(outbox0, outbox)
    ensures |outbox| == |PendingIds(outbox)| + |IdsWith(outbox, Sent)| + |IdsWith(outbox0, Failed)|
  {
    assert IdsWith(outbox, Failed) == IdsWith(outbox0, Failed);
    assert outbox.Keys == PendingIds(outbox) + IdsWith(outbox, Sent) + IdsWith(outbox, Failed);
    assert |outbox| == |outbox.Keys|;
  }

  ghost function IdsWith(outbox: Outbox, status: DeliveryStatus): set<Uuid> {
    set id | id in outbox && outbox[id].status == status
  }

  /** Per process: the failure counter is the error counter; committed marks never exceed what the counters saw. */
  lemma CounterConservation(s0: State, run: seq<Action>, s: State, p: PubId)
    requires Init(s0) && Leads(s0, run, s) && p in s.pubs
    ensures var pub := s.pubs[p];
      && pub.counters.failed == pub.counters.errors
      && pub.counters.success == pub.tally.sent + pub.tally.lostAcks + |pub.acked|
      && pub.tally.attempts <= pub.counters.errors
  {
    ReachablePublishers(s0, run, s);
    assert P.PubOk(s.pubs[p], p, s.outbox, s.eventLocks, s.log);
  }

  // ----- the commands -----

  /** The event insert of a publish never meets its key, committed or in flight, so DO NOTHING never hides an event. */
  lemma InsertNeverConflicts(s0: State, run: seq<Action>, s: State, id: CallId)
    requires Init(s0) && Leads(s0, run, s)
    requires id in s.calls && s.calls[id].pc == Inserting && s.calls[id].cmd.Publish?
    ensures var eventId := PublishedEventId(s.calls[id].cmd.Key());
      eventId !in s.outbox && eventId !in s.keyLocks && CallEnabled(s, id, Insert)
  {
    ReachableCommands(s0, run, s);
    CommittedDataIsSerial(s0, run, s);
    InsertIsFree(s, id);
  }

  lemma InsertIsFree(s: State, id: CallId)
    requires C.CommandInv(s) && EventIffPublished(View(s))
    requires id in s.calls && s.calls[id].pc == Inserting && s.calls[id].cmd.Publish?
    ensures var eventId := PublishedEventId(s.calls[id].cmd.Key());
      eventId !in s.outbox && eventId !in s.keyLocks && CallEnabled(s, id, Insert)
  {
    var key := s.calls[id].cmd.Key();
    assert C.CallOk(s.calls[id], id, s.trips, s.tripLocks, s.keyLocks, s.outbox.Keys);
    assert PublishedEventId(key) in View(s).events <==> PublishedEventId(key) in s.outbox;
    assert PublishedEventId(key) !in s.keyLocks by { EventKeyUnlocked(s, id); }
  }

  /** Whoever held the event key would also hold the trip lock, which is ours. */
  lemma EventKeyUnlocked(s: State, id: CallId)
    requires C.CallsOk(s) && C.KeyLocksOwned(s.calls, s.keyLocks)
    requires id in s.calls && s.calls[id].pc == Inserting && s.calls[id].cmd.Publish?
    ensures PublishedEventId(s.calls[id].cmd.Key()) !in s.keyLocks
  {
    assert C.HoldsKey(s.calls[id], id, s.tripLocks);
    assert forall h :: h in s.calls && s.calls[h].pc == Committing ==> C.HoldsKey(s.calls[h], h, s.tripLocks);
  }

  /** The history of every trip is the chain NULL -> draft -> published -> started, cut at its current status. */
  lemma HistoryPath(s0: State, run: seq<Action>, s: State, t: Uuid)
    requires Init(s0) && Leads(s0, run, s)
    ensures StatusPath(s.history, t) == if t in s.trips then LifecycleTo(s.trips[t].status) else []
  {
    CommittedDataIsSerial(s0, run, s);
  }

  lemma DetailsStay(d: Tables, trace: seq<Entry>, d': Tables, trace': seq<Entry>, t: Uuid)
    requires DetailsFromCreation(d, trace) && DetailsFromCreation(d', trace') && trace <= trace' && t in d.trips
    ensures t in d'.trips && SameDetails(d.trips[t], d'.trips[t])
    ensures exists i :: Creates(trace, i, t) && Describes(trace[i].cmd, trace[i].now, d.trips[t])
  {
    var i :| Creates(trace, i, t);
    assert Creates(trace', i, t);
  }

  /** Driver, points, departure, seats and creation time are those of the one create command, and never change. */
  lemma WriteBackLosesNothing(s0: State, run: seq<Action>, s: State, later: seq<Action>, s': State, t: Uuid)
    requires Init(s0) && Leads(s0, run, s) && Leads(s, later, s') && t in s.trips
    ensures t in s'.trips && SameDetails(s.trips[t], s'.trips[t])
    ensures exists i :: Creates(s.trace, i, t) && Describes(s.trace[i].cmd, s.trace[i].now, s.trips[t])
  {
    CommittedDataIsSerial(s0, run, s);
    LeadsOn(s0, run, s, later, s');
    CommittedDataIsSerial(s0, run + later, s');
    LaterAdvances(s0, run, s, later, s');
    DetailsStay(View(s), s.trace, View(s'), s'.trace, t);
  }

  /** At most one publish call, one start call and one create call per trip ever takes effect. */
  lemma EffectAtMostOnce(s0: State, run: seq<Action>, s: State, a: CallId, b: CallId)
    requires Init(s0) && Leads(s0, run, s)
    requires && a in s.calls && s.calls[a].pc.Finished? && s.calls[a].pc.applied
      && b in s.calls && s.calls[b].pc.Finished? && s.calls[b].pc.applied
      && s.calls[a].cmd.Key() == s.calls[b].cmd.Key() && Target(s.calls[a].cmd) == Target(s.calls[b].cmd)
    ensures a == b
  {
    ReachableOutcomes(s0, run, s);
    CommittedDataIsSerial(s0, run, s);
    SameEffectSameCall(s, a, b);
  }

  lemma SameEffectSameCall(s: State, a: CallId, b: CallId)
    requires TraceOfCalls(s) && OutcomesOk(s) && EachSucceedsOnce(s.trace)
    requires a in s.calls && s.calls[a].pc.Finished? && s.calls[a].pc.applied
    requires b in s.calls && s.calls[b].pc.Finished? && s.calls[b].pc.applied
    requires s.calls[a].cmd.Key() == s.calls[b].cmd.Key() && Target(s.calls[a].cmd) == Target(s.calls[b].cmd)
    ensures a == b
  {
    assert OutcomeOk(s.calls[a], a, s.trace) && OutcomeOk(s.calls[b], b, s.trace);
    var i :| Recorded(s.trace, i, a, Success);
    var j :| Recorded(s.trace, j, b, Success);
    var t := s.calls[a].cmd.Key();
    assert (Publishes(s.trace, i, t) && Publishes(s.trace, j, t)) || (Starts(s.trace, i, t) && Starts(s.trace, j, t))
      || (Creates(s.trace, i, t) && Creates(s.trace, j, t));
  }
}
