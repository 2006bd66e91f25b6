/** What the publisher processes keep, whatever the interleaving: locks, marks, deliveries and counters. */
module PublisherProof {
  import opened Domain
  import opened Protocol

  // ----- one process -----

  /** Every picked row is locked by `p`, still pending, and unchanged since it was picked. */
  ghost predicate BatchHeld(pub: Pub, p: PubId, outbox: Outbox, locks: map<Uuid, PubId>) {
    && |pub.batch| <= BATCH_LIMIT
    && (forall i :: 0 <= i < |pub.batch| ==>
          && pub.batch[i].id in outbox && outbox[pub.batch[i].id] == pub.batch[i].row
          && pub.batch[i].row.status == Pending
          && pub.batch[i].id in locks && locks[pub.batch[i].id] == p)
    && (forall i, j :: 0 <= i < j < |pub.batch| ==> pub.batch[i].id != pub.batch[j].id)
  }

  /** Position `i` of the batch holds event `id`. */
  predicate PickedAt(pub: Pub, i: int, id: Uuid) {
    0 <= i < |pub.batch| && pub.batch[i].id == id
  }

  /** How far into the batch the acknowledgements may reach. */
  function AckBound(pub: Pub): nat {
    if pub.pc == AckReceived then pub.next + 1 else if pub.pc == Doomed then |pub.batch| else pub.next
  }

  ghost predicate Positions(pub: Pub) {
    && pub.next <= |pub.batch|
    && (pub.pc == Resting || pub.pc == Opened || pub.pc == Counting ==> pub.batch == [])
    && (pub.pc == Selecting ==> pub.next == 0)
    && (pub.pc == AckReceived || pub.pc.SendFailed? ==> pub.next < |pub.batch|)
    && (forall id :: id in pub.acked ==> exists i :: PickedAt(pub, i, id) && i < AckBound(pub))
    && (pub.pc == AckReceived ==> pub.batch[pub.next].id in pub.acked)
  }

  /** `after` is `before` with one more failed attempt. */
  predicate OneMoreFailure(before: OutboxRow, after: OutboxRow) {
    after.lastError.Some? && after == FailedRow(before, after.lastError.value)
  }

  /** The private writes are exactly the marks of the rows handled so far. */
  ghost predicate MarksOk(pub: Pub) {
    && (forall i :: 0 <= i < pub.next && i < |pub.batch| ==> pub.batch[i].id in pub.writes)
    && (forall id :: id in pub.writes ==> exists i :: PickedAt(pub, i, id) && i < pub.next)
    && (forall i :: 0 <= i < pub.next && i < |pub.batch| && pub.batch[i].id in pub.writes ==>
          if pub.batch[i].id in pub.acked
          then pub.writes[pub.batch[i].id] == SentRow(pub.batch[i].row, pub.now)
          else OneMoreFailure(pub.batch[i].row, pub.writes[pub.batch[i].id]))
  }

  /** The log holds the message of this row. */
  ghost predicate Delivered(id: Uuid, head: EventHead, log: seq<LogEntry>) {
    Unmarshal(head.payload).Some? && LogEntry(id, ToMessage(Unmarshal(head.payload).value)) in log
  }

  ghost predicate AcksDelivered(pub: Pub, log: seq<LogEntry>) {
    forall i ::
      0 <= i < |pub.batch| && pub.batch[i].id in pub.acked ==> Delivered(pub.batch[i].id, pub.batch[i].row.head, log)
  }

  ghost predicate CountersOk(pub: Pub) {
    && pub.counters.errors == pub.counters.failed
    && pub.counters.success == pub.tally.sent + pub.tally.lostAcks + |pub.acked|
    && pub.counters.errors >= pub.tally.attempts + pub.failures + (if pub.pc.SendFailed? then 1 else 0)
    && (pub.pc != Doomed ==> pub.failures + |pub.acked| == pub.next + (if pub.pc == AckReceived then 1 else 0))
  }

  ghost predicate PubOk(pub: Pub, p: PubId, outbox: Outbox, locks: map<Uuid, PubId>, log: seq<LogEntry>) {
    BatchHeld(pub, p, outbox, locks) && Positions(pub) && MarksOk(pub) && AcksDelivered(pub, log) && CountersOk(pub)
  }

  // ----- all processes -----

  ghost predicate PubsOk(s: State) {
    forall p :: p in s.pubs ==> PubOk(s.pubs[p], p, s.outbox, s.eventLocks, s.log)
  }

  ghost predicate LocksOwned(pubs: map<PubId, Pub>, locks: map<Uuid, PubId>) {
    forall id :: id in locks ==> locks[id] in pubs && exists i :: PickedAt(pubs[locks[id]], i, id)
  }

  ghost predicate SentDelivered(outbox: Outbox, log: seq<LogEntry>) {
    forall id :: id in outbox && outbox[id].status == Sent ==> Delivered(id, outbox[id].head, log)
  }

  /** Every copy in the log is the message of the row it was sent for. */
  ghost predicate LogFromOutbox(outbox: Outbox, log: seq<LogEntry>) {
    forall entry :: entry in log ==>
      && entry.row in outbox && Unmarshal(outbox[entry.row].head.payload).Some?
      && entry.message == ToMessage(Unmarshal(outbox[entry.row].head.payload).value)
  }

  predicate IsSent(outbox: Outbox, id: Uuid) {
    id in outbox && outbox[id].status == Sent
  }

  /** A transaction that is still open has its acknowledgement for `id`. */
  predicate OpenAck(pubs: map<PubId, Pub>, locks: map<Uuid, PubId>, id: Uuid) {
    id in locks && locks[id] in pubs && id in pubs[locks[id]].acked
  }

  function One(b: bool): nat {
    if b then 1 else 0
  }

  /**
   * Acknowledged calls for row `id`: one if it is sent, one per
   * lost acknowledgement, one if a transaction still has it.
   */
  predicate AckAccounted(s: State, id: Uuid) {
    s.acks[id] == One(IsSent(s.outbox, id)) + s.lost[id] + One(OpenAck(s.pubs, s.eventLocks, id))
  }

  ghost predicate AcksAccounted(s: State) {
    forall id :: AckAccounted(s, id)
  }

  ghost predicate PublisherInv(s: State) {
    && PubsOk(s) && LocksOwned(s.pubs, s.eventLocks)
    && SentDelivered(s.outbox, s.log) && LogFromOutbox(s.outbox, s.log) && AcksAccounted(s)
  }

  // ----- frames -----

  /** A process is indifferent to rows it has not picked, to locks of others, and to a longer log. */
  lemma OtherPub(pub: Pub, p: PubId, outbox: Outbox, locks: map<Uuid, PubId>, log: seq<LogEntry>,
                 outbox': Outbox, locks': map<Uuid, PubId>, log': seq<LogEntry>)
    requires PubOk(pub, p, outbox, locks, log)
    requires forall id :: id in outbox && id in locks && locks[id] == p ==>
      id in outbox' && outbox'[id] == outbox[id] && id in locks' && locks'[id] == p
    requires forall entry :: entry in log ==> entry in log'
    ensures PubOk(pub, p, outbox', locks', log')
  {
  }

  lemma PubsFrame(s: State, s': State, p: PubId)
    requires PubsOk(s) && s'.pubs.Keys == s.pubs.Keys + {p}
    requires PubOk(s'.pubs[p], p, s'.outbox, s'.eventLocks, s'.log)
    requires forall q :: q in s.pubs && q != p ==> s'.pubs[q] == s.pubs[q]
    requires forall id :: id in s.outbox && id in s.eventLocks && s.eventLocks[id] != p ==>
      id in s'.outbox && s'.outbox[id] == s.outbox[id] && id in s'.eventLocks && s'.eventLocks[id] == s.eventLocks[id]
    requires forall entry :: entry in s.log ==> entry in s'.log
    ensures PubsOk(s')
  {
    forall q | q in s'.pubs && q != p ensures PubOk(s'.pubs[q], q, s'.outbox, s'.eventLocks, s'.log) {
      OtherPub(s.pubs[q], q, s.outbox, s.eventLocks, s.log, s'.outbox, s'.eventLocks, s'.log);
    }
  }

  /** Locks stay owned while no owner drops a picked row. */
  lemma LocksFrame(pubs: map<PubId, Pub>, locks: map<Uuid, PubId>, pubs': map<PubId, Pub>, locks': map<Uuid, PubId>)
    requires LocksOwned(pubs, locks)
    requires forall id :: id in locks' ==> id in locks && locks'[id] == locks[id] && locks[id] in pubs'
    requires forall id :: id in locks' && locks[id] in pubs ==> pubs'[locks[id]].batch == pubs[locks[id]].batch
    ensures LocksOwned(pubs', locks')
  {
    forall id | id in locks' ensures exists i :: PickedAt(pubs'[locks'[id]], i, id) {
      var i :| PickedAt(pubs[locks[id]], i, id);
      assert PickedAt(pubs'[locks'[id]], i, id);
    }
  }

  lemma LogFrame(outbox: Outbox, log: seq<LogEntry>, appended: seq<LogEntry>)
    requires SentDelivered(outbox, log) && LogFromOutbox(outbox, log) && LogFromOutbox(outbox, appended)
    ensures SentDelivered(outbox, log + appended) && LogFromOutbox(outbox, log + appended)
  {
  }

  /** The committed marks of a transaction, seen from the table. */
  lemma MarksSeen(pub: Pub, p: PubId, outbox: Outbox, locks: map<Uuid, PubId>, id: Uuid)
    requires BatchHeld(pub, p, outbox, locks) && MarksOk(pub) && id in pub.writes
    ensures id in outbox && outbox[id].status == Pending && id in locks && locks[id] == p
    ensures if id in pub.acked then pub.writes[id] == SentRow(outbox[id], pub.now)
      else OneMoreFailure(outbox[id], pub.writes[id])
    ensures pub.writes[id].head == outbox[id].head
  {
    var i :| PickedAt(pub, i, id) && i < pub.next;
  }

  lemma AcksSeen(pub: Pub, p: PubId, outbox: Outbox, locks: map<Uuid, PubId>, log: seq<LogEntry>, id: Uuid)
    requires PubOk(pub, p, outbox, locks, log) && id in pub.acked
    ensures id in outbox && outbox[id].status == Pending && id in locks && locks[id] == p
    ensures Delivered(id, outbox[id].head, log)
    ensures AllMarked(pub) ==> id in pub.writes
  {
    var i :| PickedAt(pub, i, id) && i < AckBound(pub);
  }

  // ----- the end of a transaction -----

  /** Commit: the acknowledged rows become sent, the others of the batch gain one attempt, no other row moves. */
  ghost predicate CommittedBatch(before: Outbox, pub: Pub, after: Outbox) {
    && after.Keys == before.Keys
    && (forall id ::
        id in pub.acked ==> id in before && before[id].status == Pending && after[id] == SentRow(before[id], pub.now))
    && (forall i :: 0 <= i < |pub.batch| && pub.batch[i].id !in pub.acked ==>
          pub.batch[i].id in before && OneMoreFailure(before[pub.batch[i].id], after[pub.batch[i].id]))
    && (forall id ::
        id in before && (forall i :: 0 <= i < |pub.batch| ==> pub.batch[i].id != id) ==> after[id] == before[id])
    && PendingIds(after) == PendingIds(before) - pub.acked
    && pub.acked <= PendingIds(before)
  }

  lemma CommitEffect(s: State, p: PubId)
    requires p in s.pubs && PubOk(s.pubs[p], p, s.outbox, s.eventLocks, s.log) && AllMarked(s.pubs[p])
    ensures CommittedBatch(s.outbox, s.pubs[p], s.outbox + s.pubs[p].writes)
    ensures Heads(s.outbox + s.pubs[p].writes) == Heads(s.outbox)
  {
    var pub := s.pubs[p];
    forall id | id in pub.writes
      ensures id in s.outbox && s.outbox[id].status == Pending && pub.writes[id].head == s.outbox[id].head
      ensures if id in pub.acked then pub.writes[id] == SentRow(s.outbox[id], pub.now)
        else OneMoreFailure(s.outbox[id], pub.writes[id])
      ensures exists i :: PickedAt(pub, i, id)
    {
      MarksSeen(pub, p, s.outbox, s.eventLocks, id);
    }
    forall id | id in pub.acked ensures id in s.outbox && s.outbox[id].status == Pending && id in pub.writes {
      AcksSeen(pub, p, s.outbox, s.eventLocks, s.log, id);
    }
    WritesEffect(s.outbox, pub);
    PendingAfter(s.outbox, pub);
  }

  ghost predicate WritesAreMarks(before: Outbox, pub: Pub) {
    && (forall id :: id in pub.writes ==>
          && id in before && before[id].status == Pending
          && (if id in pub.acked then pub.writes[id] == SentRow(before[id], pub.now)
              else OneMoreFailure(before[id], pub.writes[id]))
          && exists i :: PickedAt(pub, i, id))
    && (forall id :: id in pub.acked ==> id in pub.writes)
  }

  lemma WritesEffect(before: Outbox, pub: Pub)
    requires WritesAreMarks(before, pub)
    requires forall i :: 0 <= i < |pub.batch| ==> pub.batch[i].id in pub.writes
    ensures var after := before + pub.writes;
      && after.Keys == before.Keys && Heads(after) == Heads(before)
      && (forall id :: id in pub.acked ==> after[id] == SentRow(before[id], pub.now))
      && (forall i :: 0 <= i < |pub.batch| && pub.batch[i].id !in pub.acked ==>
            OneMoreFailure(before[pub.batch[i].id], after[pub.batch[i].id]))
      && (forall id ::
          id in before && (forall i :: 0 <= i < |pub.batch| ==> pub.batch[i].id != id) ==> after[id] == before[id])
  {
  }

  lemma PendingAfter(before: Outbox, pub: Pub)
    requires WritesAreMarks(before, pub)
    ensures PendingIds(before + pub.writes) == PendingIds(before) - pub.acked
    ensures pub.acked <= PendingIds(before)
  {
  }

  // ----- every publisher action keeps the invariant -----

  /** A step of `p` that keeps its batch and its acknowledgements, and may append copies to the log. */
  lemma QuietStep(s: State, p: PubId, pub: Pub, appended: seq<LogEntry>)
    requires PublisherInv(s) && LogFromOutbox(s.outbox, appended)
    requires PubOk(pub, p, s.outbox, s.eventLocks, s.log)
    requires if p in s.pubs then pub.batch == s.pubs[p].batch && pub.acked == s.pubs[p].acked
      else pub.batch == [] && pub.acked == {}
    ensures PublisherInv(s.(pubs := s.pubs[p := pub], log := s.log + appended))
  {
    QuietPubs(s, p, pub, appended);
    SameBatchLocks(s, p, pub);
    LogFrame(s.outbox, s.log, appended);
    QuietAcks(s, p, pub, appended);
  }

  lemma QuietPubs(s: State, p: PubId, pub: Pub, appended: seq<LogEntry>)
    requires PubsOk(s) && PubOk(pub, p, s.outbox, s.eventLocks, s.log)
    ensures PubsOk(s.(pubs := s.pubs[p := pub], log := s.log + appended))
  {
    OtherPub(pub, p, s.outbox, s.eventLocks, s.log, s.outbox, s.eventLocks, s.log + appended);
    PubsFrame(s, s.(pubs := s.pubs[p := pub], log := s.log + appended), p);
  }

  lemma SameBatchLocks(s: State, p: PubId, pub: Pub)
    requires LocksOwned(s.pubs, s.eventLocks) && (p in s.pubs ==> pub.batch == s.pubs[p].batch)
    ensures LocksOwned(s.pubs[p := pub], s.eventLocks)
  {
    LocksFrame(s.pubs, s.eventLocks, s.pubs[p := pub], s.eventLocks);
  }

  lemma SameAccount(s: State, s': State)
    requires AcksAccounted(s) && s'.acks == s.acks && s'.lost == s.lost
    requires forall id :: IsSent(s'.outbox, id) == IsSent(s.outbox, id)
    requires forall id :: OpenAck(s'.pubs, s'.eventLocks, id) == OpenAck(s.pubs, s.eventLocks, id)
    ensures AcksAccounted(s')
  {
    forall id ensures AckAccounted(s', id) {
      assert AckAccounted(s, id);
    }
  }

  lemma QuietAcks(s: State, p: PubId, pub: Pub, appended: seq<LogEntry>)
    requires AcksAccounted(s) && LocksOwned(s.pubs, s.eventLocks) && (p in s.pubs ==> pub.acked == s.pubs[p].acked)
    ensures AcksAccounted(s.(pubs := s.pubs[p := pub], log := s.log + appended))
  {
    assert forall id :: OpenAck(s.pubs[p := pub], s.eventLocks, id) == OpenAck(s.pubs, s.eventLocks, id);
    SameAccount(s, s.(pubs := s.pubs[p := pub], log := s.log + appended));
  }

  lemma QuietPubStep(s: State, p: PubId, pub: Pub)
    requires PublisherInv(s) && PubOk(pub, p, s.outbox, s.eventLocks, s.log)
    requires if p in s.pubs then pub.batch == s.pubs[p].batch && pub.acked == s.pubs[p].acked
      else pub.batch == [] && pub.acked == {}
    ensures PublisherInv(SetPub(s, p, pub))
  {
    QuietStep(s, p, pub, []);
    assert s.log + [] == s.log;
  }

  lemma TakeRowKeeps(s: State, p: PubId)
    requires PublisherInv(s) && PubEnabled(s, p, TakeRow)
    ensures PublisherInv(PubNext(s, p, TakeRow))
  {
    var pub := s.pubs[p];
    var id := pub.queue[0];
    if id in s.eventLocks || id !in s.outbox || s.outbox[id].status != Pending {
      QuietPubStep(s, p, pub.(queue := pub.queue[1..]));
    } else {
      PickKeeps(s, p, id);
    }
  }

  lemma PickKeeps(s: State, p: PubId, id: Uuid)
    requires PublisherInv(s) && PubEnabled(s, p, TakeRow) && id == s.pubs[p].queue[0]
    requires id !in s.eventLocks && id in s.outbox && s.outbox[id].status == Pending
    ensures PublisherInv(DoTakeRow(s, p))
  {
    PickPubs(s, p, id);
    PickLocks(s, p, id);
    PickAcks(s, p, id);
  }

  lemma PickPubs(s: State, p: PubId, id: Uuid)
    requires PubsOk(s) && PubEnabled(s, p, TakeRow) && id == s.pubs[p].queue[0]
    requires id !in s.eventLocks && id in s.outbox && s.outbox[id].status == Pending
    ensures PubsOk(DoTakeRow(s, p))
  {
    PickedOk(s.pubs[p], p, s.outbox, s.eventLocks, s.log, id);
    PubsFrame(s, DoTakeRow(s, p), p);
  }

  lemma PickLocks(s: State, p: PubId, id: Uuid)
    requires LocksOwned(s.pubs, s.eventLocks) && PubEnabled(s, p, TakeRow) && id == s.pubs[p].queue[0]
    requires id !in s.eventLocks && id in s.outbox && s.outbox[id].status == Pending
    ensures LocksOwned(DoTakeRow(s, p).pubs, DoTakeRow(s, p).eventLocks)
  {
    var pub, s' := s.pubs[p], DoTakeRow(s, p);
    forall k | k in s'.eventLocks
      ensures s'.eventLocks[k] in s'.pubs && exists i :: PickedAt(s'.pubs[s'.eventLocks[k]], i, k)
    {
      if k == id {
        assert PickedAt(s'.pubs[p], |pub.batch|, k);
      } else {
        var i :| PickedAt(s.pubs[s.eventLocks[k]], i, k);
        assert PickedAt(s'.pubs[s'.eventLocks[k]], i, k);
      }
    }
  }

  lemma PickAcks(s: State, p: PubId, id: Uuid)
    requires AcksAccounted(s) && PubEnabled(s, p, TakeRow) && id == s.pubs[p].queue[0]
    requires PubOk(s.pubs[p], p, s.outbox, s.eventLocks, s.log)
    requires id !in s.eventLocks && id in s.outbox && s.outbox[id].status == Pending
    ensures AcksAccounted(DoTakeRow(s, p))
  {
    var pub, s' := s.pubs[p], DoTakeRow(s, p);
    assert id !in pub.acked by {
      if id in pub.acked { AcksSeen(pub, p, s.outbox, s.eventLocks, s.log, id); }
    }
    assert forall k :: OpenAck(s'.pubs, s'.eventLocks, k) == OpenAck(s.pubs, s.eventLocks, k);
    SameAccount(s, s');
  }

  lemma PickedOk(pub: Pub, p: PubId, outbox: Outbox, locks: map<Uuid, PubId>, log: seq<LogEntry>, id: Uuid)
    requires PubOk(pub, p, outbox, locks, log) && pub.pc == Selecting && |pub.batch| < BATCH_LIMIT && pub.queue != []
    requires id !in locks && id in outbox && outbox[id].status == Pending
    ensures PubOk(pub.(queue := pub.queue[1..], batch := pub.batch + [Picked(id, outbox[id])]), p, outbox,
                  locks[id := p], log)
  {
    var pub' := pub.(queue := pub.queue[1..], batch := pub.batch + [Picked(id, outbox[id])]);
    assert pub.acked == {} by {
      assert forall i, k :: !(PickedAt(pub, i, k) && i < AckBound(pub));
    }
    assert forall i :: 0 <= i < |pub.batch| ==> pub'.batch[i] == pub.batch[i];
  }

  lemma SendAckKeeps(s: State, p: PubId, copies: nat)
    requires PublisherInv(s) && PubEnabled(s, p, SendAck(copies))
    ensures PublisherInv(PubNext(s, p, SendAck(copies)))
  {
    SendAckPubs(s, p, copies);
    SameBatchLocks(s, p, DoSendAck(s, p, copies).pubs[p]);
    SendAckLog(s, p, copies);
    SendAckAccounted(s, p, copies);
  }

  lemma SendAckPubs(s: State, p: PubId, copies: nat)
    requires PubsOk(s) && PubEnabled(s, p, SendAck(copies))
    ensures PubsOk(DoSendAck(s, p, copies))
  {
    var s' := DoSendAck(s, p, copies);
    forall q | q in s'.pubs ensures PubOk(s'.pubs[q], q, s'.outbox, s'.eventLocks, s'.log) {
      if q == p { SendAckOwn(s, p, copies); } else { SendAckOther(s, p, copies, q); }
    }
  }

  lemma SendAckOther(s: State, p: PubId, copies: nat, q: PubId)
    requires PubsOk(s) && PubEnabled(s, p, SendAck(copies)) && q in s.pubs && q != p
    ensures var s' := DoSendAck(s, p, copies);
      q in s'.pubs && PubOk(s'.pubs[q], q, s'.outbox, s'.eventLocks, s'.log)
  {
    var s' := DoSendAck(s, p, copies);
    OtherPub(s.pubs[q], q, s.outbox, s.eventLocks, s.log, s'.outbox, s'.eventLocks, s'.log);
  }

  lemma SendAckOwn(s: State, p: PubId, copies: nat)
    requires PubEnabled(s, p, SendAck(copies)) && PubOk(s.pubs[p], p, s.outbox, s.eventLocks, s.log)
    ensures PubOk(DoSendAck(s, p, copies).pubs[p], p, s.outbox, s.eventLocks, DoSendAck(s, p, copies).log)
  {
    AckLogged(s, p, copies);
    AckEffect(s, p, copies);
    AckedOk(s.pubs[p], DoSendAck(s, p, copies).pubs[p], p, s.outbox, s.eventLocks, s.log, DoSendAck(s, p, copies).log);
  }

  lemma AckEffect(s: State, p: PubId, copies: nat)
    requires PubEnabled(s, p, SendAck(copies))
    ensures var pub, s' := s.pubs[p], DoSendAck(s, p, copies);
      && pub.pc == Sending && pub.next < |pub.batch| && p in s'.pubs
      && s'.pubs[p] == pub.(pc := AckReceived, acked := pub.acked + {pub.batch[pub.next].id},
                            counters := pub.counters.(success := pub.counters.success + 1))
  {
  }

  lemma AckLogged(s: State, p: PubId, copies: nat)
    requires PubEnabled(s, p, SendAck(copies))
    ensures var picked := s.pubs[p].batch[s.pubs[p].next];
      Delivered(picked.id, picked.row.head, DoSendAck(s, p, copies).log)
    ensures forall entry :: entry in s.log ==> entry in DoSendAck(s, p, copies).log
  {
    assert DoSendAck(s, p, copies).log[|s.log|] in DoSendAck(s, p, copies).log;
  }

  lemma SendAckLog(s: State, p: PubId, copies: nat)
    requires SentDelivered(s.outbox, s.log) && LogFromOutbox(s.outbox, s.log) && PubEnabled(s, p, SendAck(copies))
    requires BatchHeld(s.pubs[p], p, s.outbox, s.eventLocks)
    ensures SentDelivered(s.outbox, DoSendAck(s, p, copies).log) && LogFromOutbox(s.outbox, DoSendAck(s, p, copies).log)
  {
    var picked := s.pubs[p].batch[s.pubs[p].next];
    LogFrame(s.outbox, s.log, Copies(picked.id, ToMessage(Unmarshal(picked.row.head.payload).value), copies));
  }

  lemma NotYetAcked(pub: Pub, p: PubId, outbox: Outbox, locks: map<Uuid, PubId>)
    requires BatchHeld(pub, p, outbox, locks) && Positions(pub) && pub.pc == Sending && pub.next < |pub.batch|
    ensures pub.batch[pub.next].id !in pub.acked
  {
    assert forall i :: PickedAt(pub, i, pub.batch[pub.next].id) ==> i == pub.next;
  }

  lemma SendAckAccounted(s: State, p: PubId, copies: nat)
    requires AcksAccounted(s) && PubEnabled(s, p, SendAck(copies))
    requires BatchHeld(s.pubs[p], p, s.outbox, s.eventLocks) && Positions(s.pubs[p])
    ensures AcksAccounted(DoSendAck(s, p, copies))
  {
    NotYetAcked(s.pubs[p], p, s.outbox, s.eventLocks);
    var id0, s' := s.pubs[p].batch[s.pubs[p].next].id, DoSendAck(s, p, copies);
    assert !OpenAck(s.pubs, s.eventLocks, id0) && OpenAck(s'.pubs, s'.eventLocks, id0);
    forall id ensures AckAccounted(s', id) {
      assert AckAccounted(s, id);
      assert id != id0 ==> OpenAck(s'.pubs, s'.eventLocks, id) == OpenAck(s.pubs, s.eventLocks, id);
    }
  }

  lemma AckedOk(pub: Pub, pub': Pub, p: PubId, outbox: Outbox, locks: map<Uuid, PubId>, log: seq<LogEntry>,
                log': seq<LogEntry>)
    requires PubOk(pub, p, outbox, locks, log) && pub.pc == Sending && pub.next < |pub.batch|
    requires pub' == pub.(pc := AckReceived, acked := pub.acked + {pub.batch[pub.next].id},
                          counters := pub.counters.(success := pub.counters.success + 1))
    requires Delivered(pub.batch[pub.next].id, pub.batch[pub.next].row.head, log')
    requires forall entry :: entry in log ==> entry in log'
    ensures PubOk(pub', p, outbox, locks, log')
  {
    AckedPositions(pub, pub');
    NotYetAcked(pub, p, outbox, locks);
    AckedCounters(pub, pub');
    AckedDelivered(pub, pub', log, log');
  }

  lemma AckedCounters(pub: Pub, pub': Pub)
    requires CountersOk(pub) && pub.pc == Sending && pub.next < |pub.batch| && pub.batch[pub.next].id !in pub.acked
    requires pub' == pub.(pc := AckReceived, acked := pub.acked + {pub.batch[pub.next].id},
                          counters := pub.counters.(success := pub.counters.success + 1))
    ensures CountersOk(pub')
  {
  }

  lemma AckedDelivered(pub: Pub, pub': Pub, log: seq<LogEntry>, log': seq<LogEntry>)
    requires AcksDelivered(pub, log) && pub.next < |pub.batch| && pub'.batch == pub.batch
    requires pub'.acked == pub.acked + {pub.batch[pub.next].id}
    requires forall i, j :: 0 <= i < j < |pub.batch| ==> pub.batch[i].id != pub.batch[j].id
    requires Delivered(pub.batch[pub.next].id, pub.batch[pub.next].row.head, log')
    requires forall entry :: entry in log ==> entry in log'
    ensures AcksDelivered(pub', log')
  {
  }

  lemma AckedPositions(pub: Pub, pub': Pub)
    requires Positions(pub) && MarksOk(pub) && pub.pc == Sending && pub.next < |pub.batch|
    requires forall i, j :: 0 <= i < j < |pub.batch| ==> pub.batch[i].id != pub.batch[j].id
    requires pub' == pub.(pc := AckReceived, acked := pub.acked + {pub.batch[pub.next].id}, counters := pub'.counters)
    ensures Positions(pub') && MarksOk(pub')
  {
    AckedAt(pub, pub');
    AckedMarks(pub, pub');
  }

  lemma AckedAt(pub: Pub, pub': Pub)
    requires Positions(pub) && pub.pc == Sending && pub.next < |pub.batch|
    requires pub' == pub.(pc := AckReceived, acked := pub.acked + {pub.batch[pub.next].id}, counters := pub'.counters)
    ensures Positions(pub')
  {
    assert PickedAt(pub', pub.next, pub.batch[pub.next].id);
    forall k | k in pub.acked ensures exists i :: PickedAt(pub', i, k) && i < AckBound(pub') {
      var i :| PickedAt(pub, i, k) && i < AckBound(pub);
      assert PickedAt(pub', i, k);
    }
  }

  lemma AckedMarks(pub: Pub, pub': Pub)
    requires MarksOk(pub) && pub.pc == Sending && pub.next < |pub.batch|
    requires forall i, j :: 0 <= i < j < |pub.batch| ==> pub.batch[i].id != pub.batch[j].id
    requires pub' == pub.(pc := AckReceived, acked := pub.acked + {pub.batch[pub.next].id}, counters := pub'.counters)
    ensures MarksOk(pub')
  {
    assert forall i :: 0 <= i < pub.next ==> (pub'.batch[i].id in pub'.acked <==> pub.batch[i].id in pub.acked);
    forall k | k in pub'.writes ensures exists i :: PickedAt(pub', i, k) && i < pub'.next {
      var i :| PickedAt(pub, i, k) && i < pub.next;
      assert PickedAt(pub', i, k);
    }
  }

  lemma SendFailedKeeps(s: State, p: PubId, appended: seq<LogEntry>, reason: Reason)
    requires PublisherInv(s) && p in s.pubs && s.pubs[p].pc == Sending && s.pubs[p].next < |s.pubs[p].batch|
    requires LogFromOutbox(s.outbox, appended)
    ensures PublisherInv(DoSendFailed(s, p, appended, reason))
  {
    var pub' := DoSendFailed(s, p, appended, reason).pubs[p];
    RefusedOk(s.pubs[p], pub', p, s.outbox, s.eventLocks, s.log, reason);
    QuietStep(s, p, pub', appended);
  }

  lemma RefusedOk(pub: Pub, pub': Pub, p: PubId, outbox: Outbox, locks: map<Uuid, PubId>, log: seq<LogEntry>,
                  reason: Reason)
    requires PubOk(pub, p, outbox, locks, log) && pub.pc == Sending && pub.next < |pub.batch|
    requires pub' == pub.(pc := SendFailed(reason),
                          counters :=
                            pub.counters.(errors := pub.counters.errors + 1, failed := pub.counters.failed + 1))
    ensures PubOk(pub', p, outbox, locks, log)
  {
    SamePositions(pub, pub');
  }

  /** Moving on within the same batch keeps who stands where. */
  lemma SamePositions(pub: Pub, pub': Pub)
    requires Positions(pub) && MarksOk(pub)
    requires pub'.batch == pub.batch && pub'.next == pub.next && pub'.acked == pub.acked
    requires pub'.writes == pub.writes && pub'.now == pub.now
    requires AckBound(pub) <= AckBound(pub')
    ensures forall id :: id in pub'.acked ==> exists i :: PickedAt(pub', i, id) && i < AckBound(pub')
    ensures MarksOk(pub')
  {
    forall k | k in pub'.acked ensures exists i :: PickedAt(pub', i, k) && i < AckBound(pub') {
      var i :| PickedAt(pub, i, k) && i < AckBound(pub);
      assert PickedAt(pub', i, k);
    }
    forall k | k in pub'.writes ensures exists i :: PickedAt(pub', i, k) && i < pub'.next {
      var i :| PickedAt(pub, i, k) && i < pub.next;
      assert PickedAt(pub', i, k);
    }
  }

  lemma MarkKeeps(s: State, p: PubId)
    requires PublisherInv(s) && PubEnabled(s, p, Mark)
    ensures PublisherInv(PubNext(s, p, Mark))
  {
    MarkedOk(s.pubs[p], DoMark(s, p).pubs[p], p, s);
    QuietPubStep(s, p, DoMark(s, p).pubs[p]);
  }

  lemma MarkedOk(pub: Pub, pub': Pub, p: PubId, s: State)
    requires PubEnabled(s, p, Mark) && pub == s.pubs[p] && pub' == DoMark(s, p).pubs[p]
    requires PubOk(pub, p, s.outbox, s.eventLocks, s.log)
    ensures pub'.batch == pub.batch && pub'.acked == pub.acked
    ensures PubOk(pub', p, s.outbox, s.eventLocks, s.log)
  {
    MarkWritten(pub, pub', p, s);
    MarkPositions(pub, pub', pub.batch[pub.next].id);
    MarkMarks(pub, pub', pub.batch[pub.next].id);
  }

  /** The mark is the first of its row, is made of the picked version, and follows the answer from Kafka. */
  lemma MarkWritten(pub: Pub, pub': Pub, p: PubId, s: State)
    requires PubEnabled(s, p, Mark) && pub == s.pubs[p] && pub' == DoMark(s, p).pubs[p]
    requires BatchHeld(pub, p, s.outbox, s.eventLocks) && Positions(pub) && MarksOk(pub)
    ensures var picked := pub.batch[pub.next];
      && picked.id !in pub.writes && (picked.id in pub.acked <==> pub.pc == AckReceived)
      && pub'.writes.Keys == pub.writes.Keys + {picked.id}
      && (forall k :: k in pub.writes ==> pub'.writes[k] == pub.writes[k])
      && if pub.pc == AckReceived then pub'.writes[picked.id] == SentRow(picked.row, pub.now)
         else OneMoreFailure(picked.row, pub'.writes[picked.id])
  {
    FirstMark(pub, p, s.outbox, s.eventLocks);
  }

  lemma FirstMark(pub: Pub, p: PubId, outbox: Outbox, locks: map<Uuid, PubId>)
    requires BatchHeld(pub, p, outbox, locks) && Positions(pub) && MarksOk(pub)
    requires (pub.pc == AckReceived || pub.pc.SendFailed?) && pub.next < |pub.batch|
    ensures var id := pub.batch[pub.next].id; id !in pub.writes && (id in pub.acked <==> pub.pc == AckReceived)
  {
    assert forall i :: PickedAt(pub, i, pub.batch[pub.next].id) ==> i == pub.next;
  }

  lemma MarkPositions(pub: Pub, pub': Pub, id: Uuid)
    requires Positions(pub) && MarksOk(pub) && (pub.pc == AckReceived || pub.pc.SendFailed?)
    requires id == pub.batch[pub.next].id
    requires pub'.batch == pub.batch && pub'.next == pub.next + 1 && pub'.pc == Sending
    requires pub'.acked == pub.acked && pub'.writes.Keys == pub.writes.Keys + {id}
    ensures Positions(pub')
  {
    forall k | k in pub'.acked ensures exists i :: PickedAt(pub', i, k) && i < AckBound(pub') {
      var i :| PickedAt(pub, i, k) && i < AckBound(pub);
      assert PickedAt(pub', i, k);
    }
  }

  /** Only the row that follows gets a mark. */
  ghost predicate MarksNext(pub: Pub, pub': Pub, id: Uuid) {
    && (pub.pc == AckReceived || pub.pc.SendFailed?) && pub.next < |pub.batch|
    && pub'.batch == pub.batch && pub'.next == pub.next + 1 && pub'.acked == pub.acked && pub'.now == pub.now
    && id == pub.batch[pub.next].id && id !in pub.writes
    && pub'.writes.Keys == pub.writes.Keys + {id}
    && (forall k :: k in pub.writes ==> pub'.writes[k] == pub.writes[k])
    && if id in pub.acked then pub'.writes[id] == SentRow(pub.batch[pub.next].row, pub.now)
       else OneMoreFailure(pub.batch[pub.next].row, pub'.writes[id])
  }

  lemma MarkedAreHandled(pub: Pub, pub': Pub, id: Uuid)
    requires MarksOk(pub) && MarksNext(pub, pub', id)
    ensures forall k :: k in pub'.writes ==> exists i :: PickedAt(pub', i, k) && i < pub'.next
  {
    forall k | k in pub'.writes ensures exists i :: PickedAt(pub', i, k) && i < pub'.next {
      if k == id {
        assert PickedAt(pub', pub.next, k);
      } else {
        var i :| PickedAt(pub, i, k) && i < pub.next;
        assert PickedAt(pub', i, k);
      }
    }
  }

  lemma MarkAt(pub: Pub, pub': Pub, id: Uuid, i: nat)
    requires MarksOk(pub) && MarksNext(pub, pub', id) && i < pub'.next
    ensures pub'.batch[i].id in pub'.writes
    ensures if pub'.batch[i].id in pub'.acked
            then pub'.writes[pub'.batch[i].id] == SentRow(pub'.batch[i].row, pub'.now)
            else OneMoreFailure(pub'.batch[i].row, pub'.writes[pub'.batch[i].id])
  {
    if i < pub.next { assert pub.batch[i].id in pub.writes; }
  }

  lemma MarkMarks(pub: Pub, pub': Pub, id: Uuid)
    requires Positions(pub) && MarksOk(pub) && MarksNext(pub, pub', id)
    ensures MarksOk(pub')
  {
    MarkedAreHandled(pub, pub', id);
    forall i: nat | i < pub'.next
      ensures pub'.batch[i].id in pub'.writes
      ensures if pub'.batch[i].id in pub'.acked
              then pub'.writes[pub'.batch[i].id] == SentRow(pub'.batch[i].row, pub'.now)
              else OneMoreFailure(pub'.batch[i].row, pub'.writes[pub'.batch[i].id])
    {
      MarkAt(pub, pub', id, i);
    }
  }

  lemma EndTxKeeps(s: State, p: PubId, applied: bool)
    requires PublisherInv(s) && p in s.pubs && (applied ==> AllMarked(s.pubs[p]))
    ensures PublisherInv(EndTx(s, p, applied))
  {
    EndTxPubs(s, p, applied);
    EndTxLocks(s, p, applied);
    EndTxDelivered(s, p, applied);
    EndTxAcks(s, p, applied);
  }

  lemma EndTxPubs(s: State, p: PubId, applied: bool)
    requires PubsOk(s) && p in s.pubs && (applied ==> AllMarked(s.pubs[p]))
    ensures PubsOk(EndTx(s, p, applied))
  {
    EndTxRows(s, p, applied);
    EndTxOwn(s, p, applied);
    PubsFrame(s, EndTx(s, p, applied), p);
  }

  lemma EndTxLocks(s: State, p: PubId, applied: bool)
    requires LocksOwned(s.pubs, s.eventLocks) && p in s.pubs
    ensures LocksOwned(EndTx(s, p, applied).pubs, EndTx(s, p, applied).eventLocks)
  {
    LocksFrame(s.pubs, s.eventLocks, EndTx(s, p, applied).pubs, EndTx(s, p, applied).eventLocks);
  }

  lemma EndTxOwn(s: State, p: PubId, applied: bool)
    requires p in s.pubs && CountersOk(s.pubs[p]) && (applied ==> AllMarked(s.pubs[p]))
    ensures var s' := EndTx(s, p, applied); PubOk(s'.pubs[p], p, s'.outbox, s'.eventLocks, s'.log)
  {
  }

  /** Rows locked by others survive, and whoever is left keeps its locks. */
  lemma EndTxRows(s: State, p: PubId, applied: bool)
    requires PubsOk(s) && p in s.pubs && (applied ==> AllMarked(s.pubs[p]))
    ensures var s' := EndTx(s, p, applied);
      forall id :: id in s.outbox && id in s.eventLocks && s.eventLocks[id] != p ==>
        id in s'.outbox && s'.outbox[id] == s.outbox[id] && id in s'.eventLocks && s'.eventLocks[id] == s.eventLocks[id]
  {
    var pub := s.pubs[p];
    forall id | id in pub.writes ensures id in s.eventLocks && s.eventLocks[id] == p {
      MarksSeen(pub, p, s.outbox, s.eventLocks, id);
    }
  }

  lemma EndTxDelivered(s: State, p: PubId, applied: bool)
    requires PublisherInv(s) && p in s.pubs && (applied ==> AllMarked(s.pubs[p]))
    ensures SentDelivered(EndTx(s, p, applied).outbox, s.log) && LogFromOutbox(EndTx(s, p, applied).outbox, s.log)
  {
    if applied {
      var pub := s.pubs[p];
      forall id | id in pub.writes
        ensures id in s.outbox && pub.writes[id].head == s.outbox[id].head
        ensures pub.writes[id].status == Sent ==> Delivered(id, s.outbox[id].head, s.log)
      {
        MarksSeen(pub, p, s.outbox, s.eventLocks, id);
        if id in pub.acked { AcksSeen(pub, p, s.outbox, s.eventLocks, s.log, id); }
      }
      OverwriteDelivered(s.outbox, pub.writes, s.log);
    }
  }

  lemma OverwriteDelivered(outbox: Outbox, writes: Outbox, log: seq<LogEntry>)
    requires SentDelivered(outbox, log) && LogFromOutbox(outbox, log)
    requires forall id :: id in writes ==> id in outbox && writes[id].head == outbox[id].head
    requires forall id :: id in writes && writes[id].status == Sent ==> Delivered(id, outbox[id].head, log)
    ensures SentDelivered(outbox + writes, log) && LogFromOutbox(outbox + writes, log)
  {
  }

  lemma EndTxAcks(s: State, p: PubId, applied: bool)
    requires PublisherInv(s) && p in s.pubs && (applied ==> AllMarked(s.pubs[p]))
    ensures AcksAccounted(EndTx(s, p, applied))
  {
    var s' := EndTx(s, p, applied);
    forall id ensures AckAccounted(s', id) {
      assert AckAccounted(s, id);
      EndTxOwnId(s, p, applied, id);
      EndTxAckAt(s, p, applied, id);
    }
  }

  /** What a row that the transaction has acknowledged or marked is in the table. */
  predicate OwnId(s: State, p: PubId, applied: bool, id: Uuid)
    requires p in s.pubs
  {
    var pub := s.pubs[p];
    && (id in pub.acked ==>
          id in s.outbox && s.outbox[id].status == Pending && id in s.eventLocks && s.eventLocks[id] == p)
    && (id in pub.acked && applied ==> id in pub.writes)
    && (id in pub.writes ==>
          id in s.outbox && s.outbox[id].status == Pending && (pub.writes[id].status == Sent <==> id in pub.acked))
  }

  lemma EndTxOwnId(s: State, p: PubId, applied: bool, id: Uuid)
    requires PubsOk(s) && p in s.pubs && (applied ==> AllMarked(s.pubs[p]))
    ensures OwnId(s, p, applied, id)
  {
    var pub := s.pubs[p];
    assert PubOk(pub, p, s.outbox, s.eventLocks, s.log);
    if id in pub.acked { AcksSeen(pub, p, s.outbox, s.eventLocks, s.log, id); }
    if id in pub.writes { MarksSeen(pub, p, s.outbox, s.eventLocks, id); }
  }

  lemma EndTxAckAt(s: State, p: PubId, applied: bool, id: Uuid)
    requires p in s.pubs && AckAccounted(s, id) && OwnId(s, p, applied, id)
    ensures AckAccounted(EndTx(s, p, applied), id)
  {
  }

  /** A process that holds nothing can disappear. */
  lemma VanishKeeps(s: State, p: PubId)
    requires PublisherInv(s) && p in s.pubs && s.pubs[p].batch == []
    ensures PublisherInv(s.(pubs := s.pubs - {p}))
  {
    VanishLocks(s, p);
    VanishAcks(s, p);
  }

  lemma VanishLocks(s: State, p: PubId)
    requires LocksOwned(s.pubs, s.eventLocks) && p in s.pubs && s.pubs[p].batch == []
    ensures LocksOwned(s.pubs - {p}, s.eventLocks)
  {
    NoneLocked(s, p);
    LocksFrame(s.pubs, s.eventLocks, s.pubs - {p}, s.eventLocks);
  }

  lemma VanishAcks(s: State, p: PubId)
    requires LocksOwned(s.pubs, s.eventLocks) && AcksAccounted(s) && p in s.pubs && s.pubs[p].batch == []
    ensures AcksAccounted(s.(pubs := s.pubs - {p}))
  {
    NoneLocked(s, p);
    assert forall id :: OpenAck(s.pubs - {p}, s.eventLocks, id) == OpenAck(s.pubs, s.eventLocks, id);
    SameAccount(s, s.(pubs := s.pubs - {p}));
  }

  lemma NoneLocked(s: State, p: PubId)
    requires LocksOwned(s.pubs, s.eventLocks) && p in s.pubs && s.pubs[p].batch == []
    ensures forall id :: id in s.eventLocks ==> s.eventLocks[id] != p
  {
    assert forall i, id :: !PickedAt(s.pubs[p], i, id);
  }

  lemma CrashKeeps(s: State, p: PubId, applied: bool)
    requires PublisherInv(s) && PubEnabled(s, p, CrashPub(applied))
    ensures PublisherInv(PubNext(s, p, CrashPub(applied)))
  {
    EndTxKeeps(s, p, applied);
    VanishKeeps(EndTx(s, p, applied), p);
  }

  lemma SendNackKeeps(s: State, p: PubId, copies: nat, text: string)
    requires PublisherInv(s) && PubEnabled(s, p, SendNack(copies, text))
    ensures PublisherInv(PubNext(s, p, SendNack(copies, text)))
  {
    var picked := s.pubs[p].batch[s.pubs[p].next];
    SendFailedKeeps(s, p, Copies(picked.id, ToMessage(Unmarshal(picked.row.head.payload).value), copies),
                    SendFailure(text));
  }

  lemma PubStepKeeps(s: State, p: PubId, a: PubAction)
    requires PublisherInv(s) && PubEnabled(s, p, a)
    ensures PublisherInv(PubNext(s, p, a))
  {
    match a
    case TakeRow => TakeRowKeeps(s, p);
    case SendDecodeError => SendFailedKeeps(s, p, [], DecodeFailure);
    case SendAck(copies) => SendAckKeeps(s, p, copies);
    case SendNack(copies, text) => SendNackKeeps(s, p, copies, text);
    case Mark => MarkKeeps(s, p);
    case CommitTx(result) => EndTxKeeps(s, p, result != CommitErrorLost);
    case RollbackTx => EndTxKeeps(s, p, false);
    case CrashPub(applied) => CrashKeeps(s, p, applied);
    case _ => SmallStepKeeps(s, p, a);
  }

  lemma SmallStepKeeps(s: State, p: PubId, a: PubAction)
    requires PublisherInv(s) && PubEnabled(s, p, a)
    requires a.Launch? || a.OpenTx? || a.OpenTxError? || a.Snapshot? || a.EndSelect? || a.TxError? || a.Count?
    ensures PublisherInv(PubNext(s, p, a))
  {
    var pub' := PubNext(s, p, a).pubs[p];
    if !a.Launch? { SmallStepOk(s, p, a, pub'); }
    QuietPubStep(s, p, pub');
  }

  lemma SmallStepOk(s: State, p: PubId, a: PubAction, pub': Pub)
    requires PubEnabled(s, p, a) && p in s.pubs && PubOk(s.pubs[p], p, s.outbox, s.eventLocks, s.log)
    requires a.OpenTx? || a.OpenTxError? || a.Snapshot? || a.EndSelect? || a.TxError? || a.Count?
    requires pub' == PubNext(s, p, a).pubs[p]
    ensures PubOk(pub', p, s.outbox, s.eventLocks, s.log)
  {
    var pub := s.pubs[p];
    if a.OpenTx? {
      NothingPicked(pub);
    } else {
      SamePositions(pub, pub');
    }
  }

  lemma NothingPicked(pub: Pub)
    requires Positions(pub) && MarksOk(pub) && pub.batch == []
    ensures pub.acked == {} && pub.writes == map[]
  {
    assert forall i, id :: !PickedAt(pub, i, id);
  }
}
