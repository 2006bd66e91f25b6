/** How soon a published event reaches Kafka: a lone publisher, interleaved in any way with commands that go on. */
module Delivery {
  import opened Domain
  import opened Serial
  import opened Protocol
  import opened CallRuns
  import opened Database
  import opened Draining
  import opened Selection
  import opened System
  import C = CommandProof
  import P = PublisherProof
  import T = Theorems

  // ----- undisturbed runs -----

  /** Nothing fails, and Kafka accepts what it is sent.  A commit may report an error as long as it takes effect. */
  predicate QuietAction(a: PubAction) {
    && !a.Launch? && !a.OpenTxError? && !a.TxError? && !a.RollbackTx? && !a.CrashPub? && !a.SendNack?
    && (a.CommitTx? ==> a.result != CommitErrorLost)
  }

  /** An action of a command, whatever becomes of it, or a quiet one of publisher `p`. */
  predicate Undisturbing(a: Action, p: PubId) {
    a.PubStep? ==> a.pub == p && QuietAction(a.pub_action)
  }

  /** Rows that the step inserts are younger than `good`. */
  ghost predicate InsertsYounger(before: Outbox, after: Outbox, good: Uuid) {
    good in before && forall id :: id in after && id !in before ==> CreatedAt(after, id) > CreatedAt(before, good)
  }

  /** `p` is the only publisher that acts, undisturbed, and all rows that commands insert are younger than `good`. */
  ghost predicate Lone(states: seq<State>, run: seq<Action>, p: PubId, good: Uuid) {
    && Behaviour(states, run)
    && (forall i :: 0 <= i < |run| ==> Undisturbing(run[i], p))
    && (forall i: nat :: i < |run| ==> InsertsYounger(states[i].outbox, states[i + 1].outbox, good))
  }

  /** The batches that `p` commits. */
  function Commits(run: seq<Action>, p: PubId): nat {
    if run == [] then 0 else
    var last := run[|run| - 1];
    Commits(run[..|run| - 1], p) + if last.PubStep? && last.pub == p && last.pub_action.CommitTx? then 1 else 0
  }

  // ----- where the publisher stands -----

  /**
   * The outbox after the last batch, the outbox that the query
   * has seen, its candidates, and how many it has looked at.
   */
  datatype Scan = Scan(base: Outbox, snap: Outbox, order: seq<Uuid>, seen: nat)

  predicate Decodes(event: Picked) {
    Unmarshal(event.row.head.payload).Some?
  }

  /** Every row handled so far is acknowledged, unless it does not decode. */
  ghost predicate Handled(pub: Pub) {
    && (forall i ::
        0 <= i < |pub.batch| && i < P.AckBound(pub) && Decodes(pub.batch[i]) ==> pub.batch[i].id in pub.acked)
    && (pub.pc.SendFailed? && pub.next < |pub.batch| ==> !Decodes(pub.batch[pub.next]))
  }

  /** The rows of the batch, and no others, are locked. */
  ghost predicate OnlyBatchLocked(locks: map<Uuid, PubId>, batch: seq<Picked>) {
    locks.Keys == Elements(Ids(batch))
  }

  ghost predicate ScanOk(pub: Pub, c: Scan) {
    match pub.pc
    case Selecting =>
      && SortedPending(c.snap, c.order) && Scanned(c.snap, {}, c.order, c.seen, Ids(pub.batch))
      && pub.queue == c.order[c.seen..] && Current(c.snap, pub.batch)
    case Sending => IsBatch(c.snap, {}, pub.batch) && Handled(pub)
    case AckReceived => IsBatch(c.snap, {}, pub.batch) && Handled(pub)
    case SendFailed(_) => IsBatch(c.snap, {}, pub.batch) && Handled(pub)
    case Doomed => false
    case _ => pub.batch == []
  }

  ghost predicate Tracks(s: State, p: PubId, good: Uuid, c: Scan) {
    && p in s.pubs && OnlyBatchLocked(s.eventLocks, s.pubs[p].batch) && ScanOk(s.pubs[p], c)
    && Grows(c.base, c.snap, good) && Grows(c.snap, s.outbox, good)
  }

  lemma GrowsOn(a: Outbox, b: Outbox, c: Outbox, good: Uuid)
    requires Grows(a, b, good) && Grows(b, c, good)
    ensures Grows(a, c, good)
  {
  }

  // ----- every step -----

  lemma CommandGrows(s: State, id: CallId, a: CallAction, good: Uuid)
    requires C.CommandInv(s) && CallEnabled(s, id, a) && InsertsYounger(s.outbox, CallNext(s, id, a).outbox, good)
    ensures var s' := CallNext(s, id, a);
      Grows(s.outbox, s'.outbox, good) && s'.pubs == s.pubs && s'.eventLocks == s.eventLocks
  {
    CommandFrameHolds(s, id, a);
  }

  lemma CommandTracks(s: State, id: CallId, a: CallAction, p: PubId, good: Uuid, c: Scan)
    requires Tracks(s, p, good, c) && C.CommandInv(s) && CallEnabled(s, id, a)
    requires InsertsYounger(s.outbox, CallNext(s, id, a).outbox, good)
    ensures Tracks(CallNext(s, id, a), p, good, c)
  {
    CommandGrows(s, id, a, good);
    GrowsOn(c.snap, s.outbox, CallNext(s, id, a).outbox, good);
  }

  lemma SnapshotTracks(s: State, p: PubId, good: Uuid, c: Scan, order: seq<Uuid>) returns (c': Scan)
    requires Tracks(s, p, good, c) && PubEnabled(s, p, Snapshot(order))
    ensures c'.base == c.base && Tracks(PubNext(s, p, Snapshot(order)), p, good, c')
  {
    c' := Scan(c.base, s.outbox, order, 0);
    GrowsOn(c.base, c.snap, s.outbox, good);
    assert order[0..] == order;
  }

  /** Nobody else holds a lock and no row leaves pending, so the next candidate can be picked. */
  lemma NextIsFree(s: State, p: PubId, good: Uuid, c: Scan)
    requires Tracks(s, p, good, c) && PubEnabled(s, p, TakeRow)
    ensures c.seen < |c.order| && s.pubs[p].queue[0] == c.order[c.seen] && c.order[c.seen] in s.outbox
    ensures var id := c.order[c.seen];
      && id !in s.eventLocks && s.outbox[id].status == Pending && id in c.snap && s.outbox[id] == c.snap[id]
    ensures Scanned(c.snap, {}, c.order, c.seen + 1, Ids(s.pubs[p].batch) + [c.order[c.seen]])
  {
    SelectNext(c.snap, {}, c.order, c.seen, Ids(s.pubs[p].batch));
    assert c.order[c.seen] in c.order;
  }

  lemma TakeTracks(s: State, p: PubId, good: Uuid, c: Scan)
    requires Tracks(s, p, good, c) && PubEnabled(s, p, TakeRow)
    ensures Tracks(DoTakeRow(s, p), p, good, c.(seen := c.seen + 1))
  {
    var pub, id := s.pubs[p], c.order[c.seen];
    NextIsFree(s, p, good, c);
    IdsAppend(pub.batch, Picked(id, s.outbox[id]));
    var s' := DoTakeRow(s, p);
    assert s'.pubs[p].batch == pub.batch + [Picked(id, s.outbox[id])] && s'.eventLocks == s.eventLocks[id := p];
    assert pub.queue[1..] == c.order[c.seen + 1..];
    Extended(c.snap, pub.batch, Picked(id, s.outbox[id]), s.eventLocks, p);
  }

  lemma Extended(snap: Outbox, batch: seq<Picked>, event: Picked, locks: map<Uuid, PubId>, p: PubId)
    requires Current(snap, batch) && event.id in snap && event.row == snap[event.id] && OnlyBatchLocked(locks, batch)
    ensures Current(snap, batch + [event]) && OnlyBatchLocked(locks[event.id := p], batch + [event])
  {
    IdsAppend(batch, event);
  }

  lemma ScanCompletes(pub: Pub, c: Scan)
    requires pub.pc == Selecting && ScanOk(pub, c) && (pub.queue == [] || |pub.batch| == BATCH_LIMIT)
    ensures IsBatch(c.snap, {}, pub.batch)
  {
    assert c.order == c.order[..c.seen] + c.order[c.seen..];
    SelectionDone(c.snap, {}, c.order, c.seen, Ids(pub.batch));
  }

  lemma EndSelectTracks(s: State, p: PubId, good: Uuid, c: Scan)
    requires Tracks(s, p, good, c) && PubEnabled(s, p, EndSelect) && s.pubs[p].next == 0
    ensures Tracks(PubNext(s, p, EndSelect), p, good, c)
  {
    ScanCompletes(s.pubs[p], c);
    assert Handled(s.pubs[p].(pc := Sending, queue := []));
  }

  /** The row at hand is acknowledged. */
  lemma AckHandles(pub: Pub, pub': Pub)
    requires Handled(pub) && pub.pc == Sending && pub.next < |pub.batch|
    requires pub'.batch == pub.batch && pub'.next == pub.next && pub'.pc == AckReceived
    requires pub'.acked == pub.acked + {pub.batch[pub.next].id}
    ensures Handled(pub')
  {
  }

  lemma AckTracks(s: State, p: PubId, good: Uuid, c: Scan, copies: nat)
    requires Tracks(s, p, good, c) && PubEnabled(s, p, SendAck(copies))
    ensures Tracks(DoSendAck(s, p, copies), p, good, c)
  {
    AckHandles(s.pubs[p], DoSendAck(s, p, copies).pubs[p]);
  }

  lemma DecodeErrorTracks(s: State, p: PubId, good: Uuid, c: Scan)
    requires Tracks(s, p, good, c) && PubEnabled(s, p, SendDecodeError)
    ensures Tracks(DoSendFailed(s, p, [], DecodeFailure), p, good, c)
  {
  }

  /** The mark takes the row at hand among those handled. */
  lemma MarkHandles(pub: Pub, pub': Pub)
    requires Handled(pub) && (pub.pc == AckReceived || pub.pc.SendFailed?) && pub.next < |pub.batch|
    requires pub'.batch == pub.batch && pub'.acked == pub.acked && pub'.pc == Sending && pub'.next == pub.next + 1
    ensures Handled(pub')
  {
  }

  lemma MarkTracks(s: State, p: PubId, good: Uuid, c: Scan)
    requires Tracks(s, p, good, c) && PubEnabled(s, p, Mark)
    ensures Tracks(DoMark(s, p), p, good, c)
  {
    MarkHandles(s.pubs[p], DoMark(s, p).pubs[p]);
  }

  lemma IdleTracks(s: State, p: PubId, good: Uuid, c: Scan, a: PubAction)
    requires Tracks(s, p, good, c) && PubEnabled(s, p, a) && (a.OpenTx? || a.Count?)
    ensures Tracks(PubNext(s, p, a), p, good, c)
  {
  }

  // ----- the commit -----

  /** The rows that the query could see, after the commit. */
  ghost function Part(outbox: Outbox, snap: Outbox): Outbox {
    map id | id in snap && id in outbox :: outbox[id]
  }

  lemma RowIsDone(snap: Outbox, before: Outbox, pub: Pub, after: Outbox, log: seq<LogEntry>, i: nat)
    requires Current(snap, pub.batch) && P.CommittedBatch(before, pub, after) && i < |pub.batch|
    requires pub.batch[i].id in before && before[pub.batch[i].id] == snap[pub.batch[i].id]
    requires pub.batch[i].row.status == Pending
    requires Handled(pub) && AllMarked(pub) && P.AcksDelivered(pub, log)
    ensures after[pub.batch[i].id].status == if Decodes(pub.batch[i]) then Sent else Pending
  {
  }

  /** The batch was an undisturbed one of the outbox that the query saw. */
  lemma CommitIsQuiet(snap: Outbox, before: Outbox, pub: Pub, after: Outbox, log: seq<LogEntry>, good: Uuid)
    requires IsBatch(snap, {}, pub.batch) && Grows(snap, before, good)
    requires P.CommittedBatch(before, pub, after) && Heads(after) == Heads(before)
    requires Handled(pub) && AllMarked(pub) && P.AcksDelivered(pub, log)
    ensures QuietBatchOf(snap, Ids(pub.batch), Part(after, snap))
  {
    var done := Part(after, snap);
    forall id | id in snap ensures done[id].head == snap[id].head {
      assert Heads(after)[id] == Heads(before)[id];
    }
    forall id | id in Ids(pub.batch) && id in snap
      ensures done[id].status == if Unmarshal(snap[id].head.payload).Some? then Sent else Pending
    {
      var i :| 0 <= i < |pub.batch| && Ids(pub.batch)[i] == id;
      assert id in Free(snap, {});
      RowIsDone(snap, before, pub, after, log, i);
    }
    forall id | id in snap && id !in Ids(pub.batch) ensures done[id] == snap[id] {
      assert forall i :: 0 <= i < |pub.batch| ==> Ids(pub.batch)[i] == pub.batch[i].id;
    }
  }

  lemma PartGrows(snap: Outbox, before: Outbox, after: Outbox, good: Uuid)
    requires Grows(snap, before, good) && after.Keys == before.Keys && Heads(after) == Heads(before)
    ensures Grows(Part(after, snap), after, good)
  {
    forall id | id in after ensures after[id].head == before[id].head {
      assert Heads(after)[id] == Heads(before)[id];
    }
  }

  lemma CommitTracks(s: State, p: PubId, good: Uuid, c: Scan) returns (c': Scan)
    requires Tracks(s, p, good, c) && P.PubsOk(s) && AllMarked(s.pubs[p])
    ensures var s' := EndTx(s, p, true);
      && Tracks(s', p, good, c') && c'.base == s'.outbox && BusyBatch(c.base, s'.outbox, good)
  {
    var pub, after := s.pubs[p], s.outbox + s.pubs[p].writes;
    assert P.PubOk(pub, p, s.outbox, s.eventLocks, s.log);
    P.CommitEffect(s, p);
    CommitIsQuiet(c.snap, s.outbox, pub, after, s.log, good);
    PartGrows(c.snap, s.outbox, after, good);
    assert BusyBatchOf(c.base, c.snap, Part(after, c.snap), after, good);
    AllReleased(s, p);
    c' := Scan(after, after, [], 0);
  }

  lemma AllReleased(s: State, p: PubId)
    requires p in s.pubs && P.BatchHeld(s.pubs[p], p, s.outbox, s.eventLocks)
    requires OnlyBatchLocked(s.eventLocks, s.pubs[p].batch)
    ensures Released(s.eventLocks, p) == map[]
  {
    forall id | id in s.eventLocks ensures s.eventLocks[id] == p {
      assert id in Ids(s.pubs[p].batch);
      var i :| 0 <= i < |s.pubs[p].batch| && s.pubs[p].batch[i].id == id;
    }
  }

  // ----- whole runs -----

  lemma PubTracks(s: State, p: PubId, a: PubAction, good: Uuid, c: Scan) returns (c': Scan)
    requires Tracks(s, p, good, c) && P.PubsOk(s) && PubEnabled(s, p, a) && QuietAction(a)
    ensures var s' := PubNext(s, p, a);
      && Tracks(s', p, good, c')
      && if a.CommitTx? then c'.base == s'.outbox && BusyBatch(c.base, s'.outbox, good) else c'.base == c.base
  {
    c' := c;
    match a
    case Snapshot(order) => c' := SnapshotTracks(s, p, good, c, order);
    case TakeRow =>
      TakeTracks(s, p, good, c);
      c' := c.(seen := c.seen + 1);
    case EndSelect =>
      assert P.PubOk(s.pubs[p], p, s.outbox, s.eventLocks, s.log);
      EndSelectTracks(s, p, good, c);
    case SendAck(copies) => AckTracks(s, p, good, c, copies);
    case SendDecodeError => DecodeErrorTracks(s, p, good, c);
    case Mark => MarkTracks(s, p, good, c);
    case CommitTx(_) => c' := CommitTracks(s, p, good, c);
    case _ => IdleTracks(s, p, good, c, a);
  }

  lemma StepTracks(s: State, a: Action, p: PubId, good: Uuid, c: Scan) returns (c': Scan)
    requires Tracks(s, p, good, c) && C.CommandInv(s) && P.PubsOk(s) && Enabled(s, a) && Undisturbing(a, p)
    requires InsertsYounger(s.outbox, Next(s, a).outbox, good)
    ensures var s' := Next(s, a);
      && Tracks(s', p, good, c')
      && if a.PubStep? && a.pub_action.CommitTx? then c'.base == s'.outbox && BusyBatch(c.base, s'.outbox, good)
         else c'.base == c.base
  {
    match a
    case CallStep(id, act) =>
      CommandTracks(s, id, act, p, good, c);
      c' := c;
    case PubStep(_, act) => c' := PubTracks(s, p, act, good, c);
  }

  /** The publisher has just been launched or has ended its batch, and no outbox row is locked. */
  ghost predicate AtRest(s: State, p: PubId) {
    p in s.pubs && (s.pubs[p].pc == Resting || s.pubs[p].pc == Counting) && s.eventLocks == map[]
  }

  lemma ArisesPublishers(g: State)
    requires Arises(g)
    ensures P.PubsOk(g)
  {
    var s0, past :| Init(s0) && Leads(s0, past, g);
    T.ReachablePublishers(s0, past, g);
  }

  lemma BusyExtends(tables: seq<Outbox>, after: Outbox, good: Uuid)
    requires BusyBatches(tables, good) && BusyBatch(tables[|tables| - 1], after, good)
    ensures BusyBatches(tables + [after], good)
  {
    var longer := tables + [after];
    forall i | 0 <= i < |longer| - 1 ensures BusyBatch(longer[i], longer[i + 1], good) {
      if i < |tables| - 1 { assert BusyBatch(tables[i], tables[i + 1], good); }
    }
  }

  /** `tables` are the outboxes at the start and after each batch of a lone publisher, which now stands at `c`. */
  ghost predicate Batched(states: seq<State>, run: seq<Action>, p: PubId, good: Uuid, tables: seq<Outbox>, c: Scan) {
    && |states| == |run| + 1 && |tables| == Commits(run, p) + 1 && BusyBatches(tables, good)
    && tables[0] == states[0].outbox && c.base == tables[|tables| - 1] && Tracks(states[|run|], p, good, c)
  }

  lemma AlwaysArises(states: seq<State>, run: seq<Action>, n: nat)
    requires Behaviour(states, run) && Arises(states[0]) && n <= |run|
    ensures C.CommandInv(states[n]) && P.PubsOk(states[n])
  {
    PartLeads(states, run, 0, n);
    ArisesOn(states[0], run[0..n], states[n]);
    ArisesInOrder(states[n]);
    ArisesPublishers(states[n]);
  }

  lemma LoneBefore(states: seq<State>, run: seq<Action>, p: PubId, good: Uuid)
    requires Lone(states, run, p, good) && run != []
    ensures Lone(states[..|run|], run[..|run| - 1], p, good)
  {
    var n := |run| - 1;
    var earlier, shorter := states[..|run|], run[..n];
    forall i: nat | i < n ensures StepAt(earlier, shorter, i) { assert StepAt(states, run, i); }
    forall i: nat | i < n ensures InsertsYounger(earlier[i].outbox, earlier[i + 1].outbox, good) {
      assert InsertsYounger(states[i].outbox, states[i + 1].outbox, good);
    }
  }

  /** Whatever the interleaving, the commits of a lone publisher are batches as in the draining bound. */
  lemma {:induction false} LoneIsBusy(states: seq<State>, run: seq<Action>, p: PubId, good: Uuid)
    returns (tables: seq<Outbox>, c: Scan)
    requires Lone(states, run, p, good) && Arises(states[0]) && AtRest(states[0], p) && good in states[0].outbox
    ensures Batched(states, run, p, good, tables, c)
    decreases |run|
  {
    if run == [] {
      ArisesPublishers(states[0]);
      assert P.PubOk(states[0].pubs[p], p, states[0].outbox, states[0].eventLocks, states[0].log);
      tables, c := [states[0].outbox], Scan(states[0].outbox, states[0].outbox, [], 0);
    } else {
      var n := |run| - 1;
      LoneBefore(states, run, p, good);
      tables, c := LoneIsBusy(states[..|run|], run[..n], p, good);
      AlwaysArises(states, run, n);
      assert StepAt(states, run, n);
      c := StepTracks(states[n], run[n], p, good, c);
      if run[n].PubStep? && run[n].pub_action.CommitTx? {
        BusyExtends(tables, states[n + 1].outbox, good);
        tables := tables + [states[n + 1].outbox];
      }
    }
  }

  lemma SinceLastBatch(s: State, p: PubId, good: Uuid, c: Scan)
    requires Tracks(s, p, good, c)
    ensures good in Deliverable(s.outbox) <==> good in Deliverable(c.base)
  {
    GrowsOn(c.base, c.snap, s.outbox, good);
    GrowthIsHarmless(c.base, s.outbox, good);
  }

  /**
   * So many batches have room for all deliverable rows up to `good`, beside the undecodable rows that are not younger.
   */
  ghost predicate Enough(outbox: Outbox, batches: nat, good: Uuid) {
    && good in outbox && |NotYounger(outbox, Undecodable(outbox), good)| < 100
    && batches * (100 - |NotYounger(outbox, Undecodable(outbox), good)|)
       >= |NotYounger(outbox, Deliverable(outbox), good)|
  }

  /**
   * The row is out once the publisher has committed enough batches, however its steps interleave with those of
   * commands, and however many younger rows these insert.
   */
  lemma RowGetsOut(states: seq<State>, run: seq<Action>, p: PubId, good: Uuid)
    requires Lone(states, run, p, good) && Arises(states[0]) && AtRest(states[0], p)
    requires good in Deliverable(states[0].outbox) && Enough(states[0].outbox, Commits(run, p), good)
    ensures good !in Deliverable(states[|run|].outbox)
  {
    var tables, c := LoneIsBusy(states, run, p, good);
    RowDrains(tables, good);
    SinceLastBatch(states[|run|], p, good, c);
  }

  /** And it stays where it is, however long the run, if there are a hundred older ones. */
  lemma RowStaysIn(states: seq<State>, run: seq<Action>, p: PubId, stuck: set<Uuid>, good: Uuid)
    requires Lone(states, run, p, good) && Arises(states[0]) && AtRest(states[0], p)
    requires var outbox := states[0].outbox;
      && good in Deliverable(outbox) && stuck <= Undecodable(outbox) && |stuck| >= 100
      && forall id :: id in stuck ==> CreatedAt(outbox, id) < CreatedAt(outbox, good)
    ensures good in Deliverable(states[|run|].outbox)
  {
    var tables, c := LoneIsBusy(states, run, p, good);
    StuckBehindHundred(tables, stuck, good);
    SinceLastBatch(states[|run|], p, good, c);
  }

  /** With distinct creation times there is no third way. */
  lemma RowGetsOutExactlyIf(states: seq<State>, run: seq<Action>, p: PubId, good: Uuid)
    requires Lone(states, run, p, good) && Arises(states[0]) && AtRest(states[0], p)
    requires good in Deliverable(states[0].outbox)
    requires forall a, b :: a in states[0].outbox && b in states[0].outbox && a != b ==>
      CreatedAt(states[0].outbox, a) != CreatedAt(states[0].outbox, b)
    requires Commits(run, p) >= |NotYounger(states[0].outbox, Deliverable(states[0].outbox), good)|
    ensures good !in Deliverable(states[|run|].outbox) <==>
      |NotYounger(states[0].outbox, Undecodable(states[0].outbox), good)| < 100
  {
    var tables, c := LoneIsBusy(states, run, p, good);
    SentExactlyIfFewOlder(tables, good);
    SinceLastBatch(states[|run|], p, good, c);
  }

  // ----- the event of a published trip -----

  /** A trip that has left draft has its event in the outbox: sent, or pending and decodable. */
  lemma EventIsDeliverable(g: State, t: Uuid)
    requires Arises(g) && t in g.trips && PastDraft(g.trips[t].status)
    ensures P.IsSent(g.outbox, PublishedEventId(t)) || PublishedEventId(t) in Deliverable(g.outbox)
  {
    var s0, past :| Init(s0) && Leads(s0, past, g);
    T.NoEventLost(s0, past, g, t);
    T.EventIdsAreNotLegacy(s0, t);
    T.OwnEventOfTrip(s0, past, g, PublishedEventId(t));
  }

  lemma NotWaitingIsSent(g: State, t: Uuid)
    requires Arises(g) && PublishedEventId(t) in g.outbox && PublishedEventId(t) !in Deliverable(g.outbox)
    ensures var id := PublishedEventId(t); P.IsSent(g.outbox, id) && P.Delivered(id, g.outbox[id].head, g.log)
  {
    var s0, past :| Init(s0) && Leads(s0, past, g);
    T.NoEventLost(s0, past, g, t);
    EventIsDeliverable(g, t);
    T.ReachablePublishers(s0, past, g);
  }

  /**
   * Every published trip is announced: after so many batches its event is sent, and its message is in the log, unless
   * it has been before.
   */
  lemma PublishedIsAnnounced(states: seq<State>, run: seq<Action>, p: PubId, t: Uuid)
    requires Lone(states, run, p, PublishedEventId(t)) && Arises(states[0]) && AtRest(states[0], p)
    requires t in states[0].trips && PastDraft(states[0].trips[t].status)
    requires Enough(states[0].outbox, Commits(run, p), PublishedEventId(t))
    ensures var s', id := states[|run|], PublishedEventId(t);
      P.IsSent(s'.outbox, id) && P.Delivered(id, s'.outbox[id].head, s'.log)
  {
    var s, s', id := states[0], states[|run|], PublishedEventId(t);
    var s0, past :| Init(s0) && Leads(s0, past, s);
    PartLeads(states, run, 0, |run|);
    LaterAdvances(s0, past, s, run[0..|run|], s');
    ArisesOn(s, run[0..|run|], s');
    if id in Deliverable(s.outbox) {
      RowGetsOut(states, run, p, id);
    } else {
      EventIsDeliverable(s, t);
      T.SentRowsFrozen(s0, past, s, run[0..|run|], s', id);
    }
    NotWaitingIsSent(s', t);
  }
}
