/** Who waits for whom: no deadlock among the commands, and no waiting among the publishers. */
module Waiting {
  import opened Domain
  import opened Serial
  import opened Protocol
  import opened Selection
  import C = CommandProof
  import P = PublisherProof
  import opened Theorems

  /** The next statement of call `id` waits for a lock that `holder` has. */
  predicate WaitsFor(s: State, id: CallId, holder: CallId) {
    && id in s.calls
    && var c := s.calls[id];
       var key, eventId := c.cmd.Key(), PublishedEventId(c.cmd.Key());
       || (c.pc == Reading && key in s.trips && key in s.tripLocks && s.tripLocks[key] == holder)
       || (c.pc == Writing && !c.cmd.Create? && HeldByOther(s.tripLocks, key, id) && s.tripLocks[key] == holder)
       || (c.pc == Writing && c.cmd.Create? && key !in s.trips && key in s.tripLocks && s.tripLocks[key] == holder)
       || (c.pc == Inserting && c.cmd.Publish? && eventId in s.keyLocks && s.keyLocks[eventId] == holder)
  }

  /** The UPDATE by which publisher `p` is about to mark a row waits for `holder`, who has the row. */
  predicate MarkWaitsFor(s: State, p: PubId, holder: PubId) {
    && p in s.pubs
    && var pub := s.pubs[p];
       && (pub.pc == AckReceived || pub.pc.SendFailed?) && pub.next < |pub.batch|
       && HeldByOther(s.eventLocks, pub.batch[pub.next].id, p) && s.eventLocks[pub.batch[pub.next].id] == holder
  }

  /** The call can take a step of its own that is neither an error nor a crash. */
  ghost predicate CanProceed(s: State, id: CallId) {
    CallEnabled(s, id, VerifyRow) || CallEnabled(s, id, Write) || CallEnabled(s, id, Insert)
    || CallEnabled(s, id, Commit(CommitOk)) || CallEnabled(s, id, Rollback)
  }

  /**
   * Waiting chains have length one: whoever is waited for is another call, waits for nobody, and can go on.
   * So the waits-for graph is never cyclic.
   */
  lemma DeadlockFree(s0: State, run: seq<Action>, s: State, id: CallId, holder: CallId)
    requires Init(s0) && Leads(s0, run, s) && WaitsFor(s, id, holder)
    ensures holder != id && CanProceed(s, holder) && forall other :: !WaitsFor(s, holder, other)
  {
    ReachableCommands(s0, run, s);
    CommittedDataIsSerial(s0, run, s);
    HolderProceeds(s, id, holder);
  }

  lemma HolderProceeds(s: State, id: CallId, holder: CallId)
    requires C.CommandInv(s) && EventIffPublished(View(s)) && WaitsFor(s, id, holder)
    ensures holder != id && CanProceed(s, holder) && forall other :: !WaitsFor(s, holder, other)
  {
    WaitsForTripLock(s, id, holder);
    LockHolderProceeds(s, holder);
  }

  /**
   * Nobody ever waits for an event key or in its own UPDATE, so
   * a wait is for a trip row to read or a trip key to insert.
   */
  lemma WaitsForTripLock(s: State, id: CallId, holder: CallId)
    requires C.CallsOk(s) && C.TripLocksOwned(s.calls, s.tripLocks) && C.KeyLocksOwned(s.calls, s.keyLocks)
    requires WaitsFor(s, id, holder)
    ensures holder != id && holder in s.calls && C.MayHoldKey(s.calls[holder])
    ensures C.HoldsKey(s.calls[holder], holder, s.tripLocks)
  {
    if s.calls[id].pc == Inserting { EventKeyUnlocked(s, id); }
  }

  lemma LockHolderProceeds(s: State, holder: CallId)
    requires C.CommandInv(s) && EventIffPublished(View(s))
    requires holder in s.calls && C.MayHoldKey(s.calls[holder]) && C.HoldsKey(s.calls[holder], holder, s.tripLocks)
    ensures CanProceed(s, holder) && forall other :: !WaitsFor(s, holder, other)
  {
    if s.calls[holder].pc == Inserting && s.calls[holder].cmd.Publish? {
      InsertIsFree(s, holder);
    } else {
      PlainHolderProceeds(s, holder);
    }
  }

  lemma PlainHolderProceeds(s: State, holder: CallId)
    requires C.CallsOk(s) && holder in s.calls && C.MayHoldKey(s.calls[holder])
    requires s.calls[holder].pc == Inserting ==> !s.calls[holder].cmd.Publish?
    ensures CanProceed(s, holder) && forall other :: !WaitsFor(s, holder, other)
  {
    assert C.CallOk(s.calls[holder], holder, s.trips, s.tripLocks, s.keyLocks, s.outbox.Keys);
  }

  /**
   * From every point of its loop a publisher has a step that is no error and no crash, if it need not wait for a mark.
   */
  lemma PublisherProceeds(s: State, p: PubId, order: seq<Uuid>)
    requires p in s.pubs && SortedPending(s.outbox, order)
    requires s.pubs[p].next <= |s.pubs[p].batch| && |s.pubs[p].batch| <= BATCH_LIMIT
    requires s.pubs[p].pc == AckReceived || s.pubs[p].pc.SendFailed? ==> s.pubs[p].next < |s.pubs[p].batch|
    requires forall holder :: !MarkWaitsFor(s, p, holder)
    ensures exists a :: PubEnabled(s, p, a) && !a.OpenTxError? && !a.TxError? && !a.CrashPub?
  {
    var pub := s.pubs[p];
    var a := match pub.pc
      case Resting => OpenTx(0)
      case Opened => Snapshot(order)
      case Selecting => if pub.queue == [] || |pub.batch| == BATCH_LIMIT then EndSelect else TakeRow
      case Sending =>
        if pub.next == |pub.batch| then CommitTx(CommitOk)
        else if Unmarshal(pub.batch[pub.next].row.head.payload).None? then SendDecodeError else SendAck(1)
      case AckReceived => Mark
      case SendFailed(_) => Mark
      case Doomed => RollbackTx
      case Counting => Count(true);
    if a == Mark { OwnsNextRow(s, p); }
    assert PubEnabled(s, p, a);
  }

  lemma OwnsNextRow(s: State, p: PubId)
    requires p in s.pubs && (s.pubs[p].pc == AckReceived || s.pubs[p].pc.SendFailed?)
      && s.pubs[p].next < |s.pubs[p].batch|
    requires forall holder :: !MarkWaitsFor(s, p, holder)
    ensures !HeldByOther(s.eventLocks, s.pubs[p].batch[s.pubs[p].next].id, p)
  {
    var id := s.pubs[p].batch[s.pubs[p].next].id;
    if HeldByOther(s.eventLocks, id, p) { assert MarkWaitsFor(s, p, s.eventLocks[id]); }
  }

  /**
   * The SELECT skips locked rows, and the UPDATEs meet only rows that the SELECT has locked: a publisher never waits
   * for another, and can always go on.
   */
  lemma PublisherNeverWaits(s0: State, run: seq<Action>, s: State, p: PubId)
    requires Init(s0) && Leads(s0, run, s) && p in s.pubs
    ensures forall holder :: !MarkWaitsFor(s, p, holder)
    ensures exists a :: PubEnabled(s, p, a) && !a.OpenTxError? && !a.TxError? && !a.CrashPub?
  {
    ReachablePublishers(s0, run, s);
    HoldsNextRow(s, p);
    SortedOrderExists(s.outbox);
    var order :| SortedPending(s.outbox, order);
    PublisherProceeds(s, p, order);
  }

  lemma HoldsNextRow(s: State, p: PubId)
    requires P.PubsOk(s) && p in s.pubs
    ensures s.pubs[p].next <= |s.pubs[p].batch| && |s.pubs[p].batch| <= BATCH_LIMIT
    ensures s.pubs[p].pc == AckReceived || s.pubs[p].pc.SendFailed? ==> s.pubs[p].next < |s.pubs[p].batch|
    ensures forall holder :: !MarkWaitsFor(s, p, holder)
  {
    assert P.PubOk(s.pubs[p], p, s.outbox, s.eventLocks, s.log);
  }
}
