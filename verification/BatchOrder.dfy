/** Oldest first, whatever the interleaving: the order of the rows that a publisher holds. */
module BatchOrder {
  import opened Domain
  import opened Protocol
  import P = PublisherProof
  import opened System
  import opened Theorems

  /** The rows picked so far stand by age, and so do the candidates still to be seen, which are no older. */
  ghost predicate InOrder(pub: Pub, outbox: Outbox) {
    && (forall i, j :: 0 <= i < j < |pub.batch| ==> pub.batch[i].row.head.createdAt <= pub.batch[j].row.head.createdAt)
    && (forall i :: 0 <= i < |pub.queue| ==> pub.queue[i] in outbox)
    && (forall i, j ::
        0 <= i < j < |pub.queue| ==> outbox[pub.queue[i]].head.createdAt <= outbox[pub.queue[j]].head.createdAt)
    && (forall i, j :: 0 <= i < |pub.batch| && 0 <= j < |pub.queue| ==>
          pub.batch[i].row.head.createdAt <= outbox[pub.queue[j]].head.createdAt)
  }

  ghost predicate AllInOrder(s: State) {
    forall p :: p in s.pubs ==> InOrder(s.pubs[p], s.outbox)
  }

  lemma OutboxGrows(pub: Pub, before: Outbox, after: Outbox)
    requires InOrder(pub, before) && OutboxAdvances(before, after)
    ensures InOrder(pub, after)
  {
  }

  lemma SnapshotInOrder(pub: Pub, outbox: Outbox, order: seq<Uuid>)
    requires pub.batch == [] && SortedPending(outbox, order)
    ensures InOrder(pub.(pc := Selecting, queue := order), outbox)
  {
    forall i | 0 <= i < |order| ensures order[i] in outbox { assert order[i] in order; }
  }

  lemma SkipInOrder(pub: Pub, outbox: Outbox)
    requires InOrder(pub, outbox) && pub.queue != []
    ensures InOrder(pub.(queue := pub.queue[1..]), outbox)
  {
    assert forall i :: 0 <= i < |pub.queue| - 1 ==> pub.queue[1..][i] == pub.queue[i + 1];
  }

  lemma PickInOrder(pub: Pub, outbox: Outbox)
    requires InOrder(pub, outbox) && pub.queue != []
    ensures InOrder(pub.(queue := pub.queue[1..], batch := pub.batch + [Picked(pub.queue[0], outbox[pub.queue[0]])]),
                    outbox)
  {
    assert forall i :: 0 <= i < |pub.queue| - 1 ==> pub.queue[1..][i] == pub.queue[i + 1];
  }

  lemma TakeInOrder(s: State, p: PubId)
    requires PubEnabled(s, p, TakeRow) && InOrder(s.pubs[p], s.outbox)
    ensures InOrder(DoTakeRow(s, p).pubs[p], s.outbox)
  {
    SkipInOrder(s.pubs[p], s.outbox);
    PickInOrder(s.pubs[p], s.outbox);
  }

  lemma MoveInOrder(s: State, p: PubId, a: PubAction)
    requires PubEnabled(s, p, a) && !a.CrashPub? && (p in s.pubs ==> InOrder(s.pubs[p], s.outbox))
    requires a.Snapshot? ==> s.pubs[p].batch == []
    ensures InOrder(PubNext(s, p, a).pubs[p], s.outbox)
  {
    match a
    case Snapshot(order) => SnapshotInOrder(s.pubs[p], s.outbox, order);
    case TakeRow => TakeInOrder(s, p);
    case Launch => assert PubNext(s, p, a).pubs[p] == IDLE_PUB;
    case CommitTx(result) => EndInOrder(s, p, result != CommitErrorLost);
    case RollbackTx => EndInOrder(s, p, false);
    case _ => SameRows(s, p, a);
  }

  lemma EndInOrder(s: State, p: PubId, applied: bool)
    requires p in s.pubs
    ensures InOrder(EndTx(s, p, applied).pubs[p], s.outbox)
  {
  }

  lemma NothingPickedYet(s: State, p: PubId)
    requires P.PubsOk(s) && p in s.pubs && s.pubs[p].pc == Opened
    ensures s.pubs[p].batch == []
  {
    assert P.PubOk(s.pubs[p], p, s.outbox, s.eventLocks, s.log);
  }

  lemma SameRows(s: State, p: PubId, a: PubAction)
    requires PubEnabled(s, p, a) && p in s.pubs && InOrder(s.pubs[p], s.outbox)
    requires !a.Snapshot? && !a.TakeRow? && !a.Launch? && !a.CommitTx? && !a.RollbackTx? && !a.CrashPub?
    ensures InOrder(PubNext(s, p, a).pubs[p], s.outbox)
  {
    var pub, pub' := s.pubs[p], PubNext(s, p, a).pubs[p];
    assert pub'.batch == pub.batch && (pub'.queue == pub.queue || pub'.queue == []);
  }

  lemma OthersStay(s: State, p: PubId, a: PubAction, q: PubId)
    requires PubEnabled(s, p, a) && q in PubNext(s, p, a).pubs && q != p
    ensures q in s.pubs && PubNext(s, p, a).pubs[q] == s.pubs[q]
  {
  }

  lemma StepInOrder(s0: State, s: State, a: Action)
    requires Inv(s0, s) && AllInOrder(s) && Enabled(s, a)
    ensures AllInOrder(Next(s, a))
  {
    StepInv(s0, s, a);
    var s' := Next(s, a);
    forall q | q in s'.pubs ensures InOrder(s'.pubs[q], s'.outbox) {
      match a
      case CallStep(id, act) =>
        CommandFrameHolds(s, id, act);
        OutboxGrows(s.pubs[q], s.outbox, s'.outbox);
      case PubStep(p, act) =>
        if act.Snapshot? { NothingPickedYet(s, p); }
        if q == p { MoveInOrder(s, p, act); } else { OthersStay(s, p, act, q); }
        OutboxGrows(s'.pubs[q], s.outbox, s'.outbox);
    }
  }

  lemma {:induction false} RunInOrder(s0: State, s: State, run: seq<Action>)
    requires Inv(s0, s) && AllInOrder(s) && ValidRun(s, run)
    ensures AllInOrder(Final(s, run))
    decreases |run|
  {
    if run != [] {
      var shorter := run[..|run| - 1];
      RunInOrder(s0, s, shorter);
      RunKeeps(s0, s, shorter);
      StepInOrder(s0, Final(s, shorter), run[|run| - 1]);
    }
  }

  /** In every reachable state every batch has at most 100 rows, no row twice, and the oldest first. */
  lemma BatchesOldestFirst(s0: State, run: seq<Action>, s: State, p: PubId)
    requires Init(s0) && Leads(s0, run, s) && p in s.pubs
    ensures |s.pubs[p].batch| <= 100
    ensures forall i, j :: 0 <= i < j < |s.pubs[p].batch| ==>
      var earlier, later := s.pubs[p].batch[i], s.pubs[p].batch[j];
      earlier.id != later.id && earlier.row.head.createdAt <= later.row.head.createdAt
  {
    LeadsIsFinal(s0, run, s);
    InitInv(s0);
    RunInOrder(s0, s0, run);
    ReachablePublishers(s0, run, s);
    assert P.PubOk(s.pubs[p], p, s.outbox, s.eventLocks, s.log) && InOrder(s.pubs[p], s.outbox);
  }

  // ----- what becomes of the rows of a snapshot -----

  /** From its snapshot, action `m`, up to state `n`, publisher `p` is busy with the scan. */
  ghost predicate Scanning(states: seq<State>, run: seq<Action>, p: PubId, m: nat, n: nat) {
    && |states| == |run| + 1 && m < n <= |run| && run[m].PubStep? && run[m].pub == p && run[m].pub_action.Snapshot?
    && forall k :: m < k <= n ==> p in states[k].pubs && states[k].pubs[p].pc == Selecting
  }

  predicate InBatch(pub: Pub, id: Uuid) {
    exists i :: 0 <= i < |pub.batch| && pub.batch[i].id == id
  }

  /** Action `k` of the scan comes to the row and skips it: somebody has it locked, or it has left pending. */
  ghost predicate SkippedAt(states: seq<State>, run: seq<Action>, k: nat, p: PubId, id: Uuid) {
    && k < |run| && |states| == |run| + 1 && run[k] == PubStep(p, TakeRow) && id in states[k].outbox
    && p in states[k].pubs && states[k].pubs[p].queue != [] && states[k].pubs[p].queue[0] == id
    && (id in states[k].eventLocks || states[k].outbox[id].status != Pending)
  }

  /** The row is still to be seen, has been picked, or has been skipped for good reason. */
  ghost predicate Accounted(states: seq<State>, run: seq<Action>, p: PubId, m: nat, n: nat, id: Uuid)
    requires n < |states|
  {
    p in states[n].pubs &&
    (|| id in states[n].pubs[p].queue || InBatch(states[n].pubs[p], id)
     || exists k :: m < k < n && SkippedAt(states, run, k, p, id))
  }

  lemma OwnScanStep(s: State, p: PubId, a: PubAction)
    requires PubEnabled(s, p, a) && p in s.pubs && s.pubs[p].pc == Selecting
    requires p in PubNext(s, p, a).pubs && PubNext(s, p, a).pubs[p].pc == Selecting
    ensures a == TakeRow
  {
    assert a.TakeRow? || a.EndSelect? || a.TxError? || a.CrashPub?;
  }

  lemma ScanStep(s: State, a: Action, p: PubId)
    requires Enabled(s, a) && p in s.pubs && s.pubs[p].pc == Selecting
    requires p in Next(s, a).pubs && Next(s, a).pubs[p].pc == Selecting
    ensures a == PubStep(p, TakeRow) || Next(s, a).pubs[p] == s.pubs[p]
  {
    match a
    case CallStep(id, act) =>
      var s' := CallNext(s, id, act);
      assert AppliesCommand(act) || Publishers(s') == Publishers(s);
    case PubStep(q, act) => if q == p { OwnScanStep(s, p, act); } else { OthersStay(s, q, act, p); }
  }

  lemma OneTaken(before: Pub, after: Pub, picked: seq<Picked>, id: Uuid)
    requires before.queue != [] && after.queue == before.queue[1..] && after.batch == before.batch + picked
    requires id in before.queue || InBatch(before, id)
    ensures id == before.queue[0] || id in after.queue || InBatch(after, id)
    ensures forall i :: 0 <= i < |picked| ==> InBatch(after, picked[i].id)
  {
    assert before.queue == [before.queue[0]] + after.queue;
    if i :| 0 <= i < |before.batch| && before.batch[i].id == id { assert after.batch[i].id == id; }
    forall i | 0 <= i < |picked| ensures InBatch(after, picked[i].id) {
      assert after.batch[|before.batch| + i] == picked[i];
    }
  }

  lemma TakeAccounts(s: State, p: PubId, id: Uuid)
    requires PubEnabled(s, p, TakeRow) && InOrder(s.pubs[p], s.outbox)
    requires id in s.pubs[p].queue || InBatch(s.pubs[p], id)
    ensures var pub := DoTakeRow(s, p).pubs[p];
      || id in pub.queue || InBatch(pub, id)
      || (id == s.pubs[p].queue[0] && id in s.outbox && (id in s.eventLocks || s.outbox[id].status != Pending))
  {
    var before, after := s.pubs[p], DoTakeRow(s, p).pubs[p];
    var first := before.queue[0];
    var skipped := first in s.eventLocks || s.outbox[first].status != Pending;
    var picked := if skipped then [] else [Picked(first, s.outbox[first])];
    assert after.batch == before.batch + picked;
    OneTaken(before, after, picked, id);
    assert !skipped ==> picked[0].id == first;
  }

  lemma AccountedNext(states: seq<State>, run: seq<Action>, p: PubId, m: nat, n: nat, id: Uuid)
    requires Behaviour(states, run) && Scanning(states, run, p, m, n + 1) && m < n && AllInOrder(states[n])
    requires Accounted(states, run, p, m, n, id)
    ensures Accounted(states, run, p, m, n + 1, id)
  {
    assert StepAt(states, run, n);
    ScanStep(states[n], run[n], p);
    if k :| m < k < n && SkippedAt(states, run, k, p, id) {
      assert m < k < n + 1 && SkippedAt(states, run, k, p, id);
    } else if run[n] == PubStep(p, TakeRow) {
      TakeAccounts(states[n], p, id);
      if SkippedAt(states, run, n, p, id) {
        assert m < n < n + 1 && SkippedAt(states, run, n, p, id);
      }
    }
  }

  lemma ReachableInOrder(s0: State, states: seq<State>, run: seq<Action>, n: nat)
    requires Init(s0) && Behaviour(states, run) && states[0] == s0 && n <= |run|
    ensures AllInOrder(states[n])
  {
    PartLeads(states, run, 0, n);
    LeadsIsFinal(s0, run[0..n], states[n]);
    InitInv(s0);
    RunInOrder(s0, s0, run[0..n]);
  }

  /** Every row of the snapshot is accounted for at every point of the scan. */
  lemma {:induction false} SnapshotAccounted(s0: State, states: seq<State>, run: seq<Action>, p: PubId, m: nat, n: nat,
                                             id: Uuid)
    requires Init(s0) && Behaviour(states, run) && states[0] == s0
    requires Scanning(states, run, p, m, n) && id in PendingIds(states[m].outbox)
    ensures Accounted(states, run, p, m, n, id)
    decreases n
  {
    if n == m + 1 {
      assert StepAt(states, run, m);
      assert id in run[m].pub_action.order;
    } else {
      SnapshotAccounted(s0, states, run, p, m, n - 1, id);
      ReachableInOrder(s0, states, run, n - 1);
      AccountedNext(states, run, p, m, n - 1, id);
    }
  }

  /**
   * When the query ends, no row of its snapshot has been passed over: a row that is older than a picked one, or any
   * row if the batch is not full, is in the batch, unless it was locked or no longer pending when its turn came.
   */
  lemma NothingPassedOver(s0: State, states: seq<State>, run: seq<Action>, p: PubId, m: nat, n: nat, id: Uuid)
    requires Init(s0) && Behaviour(states, run) && states[0] == s0
    requires Scanning(states, run, p, m, n) && PubEnabled(states[n], p, EndSelect) && id in PendingIds(states[m].outbox)
    ensures id in states[n].outbox && states[n].outbox[id].head == states[m].outbox[id].head
    ensures var batch := states[n].pubs[p].batch;
      (|batch| < 100
       || exists i :: 0 <= i < |batch| && states[m].outbox[id].head.createdAt < batch[i].row.head.createdAt)
      ==> InBatch(states[n].pubs[p], id) || exists k :: m < k < n && SkippedAt(states, run, k, p, id)
  {
    SnapshotAccounted(s0, states, run, p, m, n, id);
    ReachableInOrder(s0, states, run, n);
    PartLeads(states, run, 0, m);
    PartLeads(states, run, m, n);
    LaterAdvances(s0, run[0..m], states[m], run[m..n], states[n]);
    var pub := states[n].pubs[p];
    assert InOrder(pub, states[n].outbox);
    if id in pub.queue {
      var j :| 0 <= j < |pub.queue| && pub.queue[j] == id;
    }
  }
}
