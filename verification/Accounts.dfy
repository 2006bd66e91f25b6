/** The counts that publishers keep in memory, and the numbers that the tables show. */
module Accounts {
  import opened Domain
  import opened Protocol
  import opened Theorems
  import P = PublisherProof

  // ----- failed attempts -----

  /** One element for every failed attempt recorded in the table: the sum of the column `attempts` is its size. */
  ghost function Attempts(outbox: Outbox): set<(Uuid, nat)> {
    set id: Uuid, k: nat | id in outbox && 0 <= k < outbox[id].attempts :: (id, k)
  }

  /** For each of the rows, its next attempt. */
  ghost function NextAttempts(outbox: Outbox, ids: set<Uuid>): set<(Uuid, nat)> {
    set id | id in ids && id in outbox :: (id, outbox[id].attempts)
  }

  lemma {:induction false} NextAttemptsCount(outbox: Outbox, ids: set<Uuid>)
    requires ids <= outbox.Keys
    ensures |NextAttempts(outbox, ids)| == |ids|
  {
    if ids != {} {
      var id :| id in ids;
      NextAttemptsCount(outbox, ids - {id});
      assert NextAttempts(outbox, ids) == NextAttempts(outbox, ids - {id}) + {(id, outbox[id].attempts)};
      assert (id, outbox[id].attempts) !in NextAttempts(outbox, ids - {id});
    }
  }

  /** The rows `ids` gain one attempt each, and no other row gains or loses one. */
  ghost predicate OneMoreEach(before: Outbox, ids: set<Uuid>, after: Outbox) {
    && after.Keys == before.Keys && ids <= before.Keys
    && forall id :: id in before ==> after[id].attempts == before[id].attempts + P.One(id in ids)
  }

  lemma AttemptsAdded(before: Outbox, ids: set<Uuid>, after: Outbox)
    requires OneMoreEach(before, ids, after)
    ensures |Attempts(after)| == |Attempts(before)| + |ids|
  {
    NextAttemptsCount(before, ids);
    assert Attempts(after) == Attempts(before) + NextAttempts(before, ids);
    assert Attempts(before) !! NextAttempts(before, ids);
  }

  // ----- a batch -----

  ghost function BatchIds(batch: seq<Picked>): set<Uuid> {
    set i | 0 <= i < |batch| :: batch[i].id
  }

  lemma {:induction false} BatchIdsCount(batch: seq<Picked>)
    requires forall i, j :: 0 <= i < j < |batch| ==> batch[i].id != batch[j].id
    ensures |BatchIds(batch)| == |batch|
  {
    if batch != [] {
      var shorter, last := batch[..|batch| - 1], batch[|batch| - 1];
      BatchIdsCount(shorter);
      assert BatchIds(batch) == BatchIds(shorter) + {last.id};
      assert last.id !in BatchIds(shorter);
    }
  }

  /** A complete batch has as many failures as rows without an acknowledgement. */
  lemma FailuresCount(pub: Pub)
    requires P.Positions(pub) && P.CountersOk(pub) && AllMarked(pub)
    requires forall i, j :: 0 <= i < j < |pub.batch| ==> pub.batch[i].id != pub.batch[j].id
    ensures pub.acked <= BatchIds(pub.batch) && |BatchIds(pub.batch) - pub.acked| == pub.failures
  {
    BatchIdsCount(pub.batch);
    forall id | id in pub.acked ensures id in BatchIds(pub.batch) {
      var i :| P.PickedAt(pub, i, id) && i < P.AckBound(pub);
    }
    assert BatchIds(pub.batch) == (BatchIds(pub.batch) - pub.acked) + pub.acked;
  }

  lemma CommitAddsAttempts(before: Outbox, pub: Pub, after: Outbox)
    requires P.CommittedBatch(before, pub, after) && pub.acked <= BatchIds(pub.batch)
    requires forall i :: 0 <= i < |pub.batch| ==> pub.batch[i].id in before
    ensures |Attempts(after)| == |Attempts(before)| + |BatchIds(pub.batch) - pub.acked|
  {
    var ids := BatchIds(pub.batch) - pub.acked;
    forall id | id in before ensures after[id].attempts == before[id].attempts + P.One(id in ids) {
      if id in BatchIds(pub.batch) && id !in pub.acked {
        var i :| 0 <= i < |pub.batch| && pub.batch[i].id == id;
      }
    }
    AttemptsAdded(before, ids, after);
  }

  lemma CommitAddsSent(before: Outbox, pub: Pub, after: Outbox)
    requires P.CommittedBatch(before, pub, after)
    ensures |IdsWith(after, Sent)| == |IdsWith(before, Sent)| + |pub.acked|
  {
    forall id | id in before && before[id].status == Sent ensures after[id].status == Sent {
      if i :| 0 <= i < |pub.batch| && pub.batch[i].id == id { }
    }
    assert IdsWith(after, Sent) == IdsWith(before, Sent) + pub.acked;
    assert IdsWith(before, Sent) !! pub.acked;
  }

  /** What an action of publisher `p` adds to the table. */
  ghost predicate Adds(before: Outbox, after: Outbox, sent: nat, attempts: nat) {
    && |IdsWith(after, Sent)| == |IdsWith(before, Sent)| + sent
    && |Attempts(after)| == |Attempts(before)| + attempts
  }

  lemma AppliedAdds(s: State, p: PubId)
    requires P.PubsOk(s) && p in s.pubs && AllMarked(s.pubs[p])
    ensures Adds(s.outbox, EndTx(s, p, true).outbox, |s.pubs[p].acked|, s.pubs[p].failures)
  {
    var pub := s.pubs[p];
    P.CommitEffect(s, p);
    FailuresCount(pub);
    CommitAddsAttempts(s.outbox, pub, s.outbox + pub.writes);
    CommitAddsSent(s.outbox, pub, s.outbox + pub.writes);
  }

  /**
   * Whatever a publisher does, the rows that become sent are as many as it adds to its tally of sent rows, and the
   * failed attempts that the table gains as many as it adds to its tally of attempts; if it crashes in an applied
   * commit, then as many as its batch had.
   */
  lemma TalliesShowInTable(s0: State, run: seq<Action>, s: State, p: PubId, a: PubAction)
    requires Init(s0) && Leads(s0, run, s) && p in s.pubs && PubEnabled(s, p, a)
    ensures var pub, s' := s.pubs[p], PubNext(s, p, a);
      && (p in s'.pubs ==>
            && s'.pubs[p].tally.sent >= pub.tally.sent && s'.pubs[p].tally.attempts >= pub.tally.attempts
            && Adds(s.outbox, s'.outbox,
                    s'.pubs[p].tally.sent - pub.tally.sent, s'.pubs[p].tally.attempts - pub.tally.attempts))
      && (AppliesBatch(a) ==> Adds(s.outbox, s'.outbox, |pub.acked|, pub.failures))
      && (!AppliesBatch(a) ==> Adds(s.outbox, s'.outbox, 0, 0))
  {
    ReachablePublishers(s0, run, s);
    if AppliesBatch(a) {
      AppliedIsEndTx(s, p, a);
      AppliedAdds(s, p);
      AppliedTally(s, p, a);
    } else {
      IdleTally(s, p, a);
    }
  }

  lemma AppliedTally(s: State, p: PubId, a: PubAction)
    requires PubEnabled(s, p, a) && AppliesBatch(a) && p in s.pubs
    ensures var pub, s' := s.pubs[p], PubNext(s, p, a); p in s'.pubs ==>
      s'.pubs[p].tally ==
        pub.tally.(sent := pub.tally.sent + |pub.acked|, attempts := pub.tally.attempts + pub.failures)
  {
  }

  lemma IdleTally(s: State, p: PubId, a: PubAction)
    requires PubEnabled(s, p, a) && !AppliesBatch(a) && p in s.pubs
    ensures var pub, s' := s.pubs[p], PubNext(s, p, a); p in s'.pubs ==>
      s'.pubs[p].tally.sent == pub.tally.sent && s'.pubs[p].tally.attempts == pub.tally.attempts
  {
  }

  // ----- acknowledgements in all -----

  ghost function OpenAcks(s: State): set<Uuid> {
    set id | id in s.eventLocks && P.OpenAck(s.pubs, s.eventLocks, id)
  }

  /** All acknowledged Kafka calls: as many as there are sent rows, lost acknowledgements and open ones. */
  lemma AcksInAll(s0: State, run: seq<Action>, s: State)
    requires Init(s0) && Leads(s0, run, s)
    ensures |s.acks| == |IdsWith(s.outbox, Sent)| + |s.lost| + |OpenAcks(s)|
  {
    ReachablePublishers(s0, run, s);
    var sent, opens := multiset(IdsWith(s.outbox, Sent)), multiset(OpenAcks(s));
    forall id ensures s.acks[id] == (sent + s.lost + opens)[id] {
      assert P.AckAccounted(s, id);
    }
    assert s.acks == sent + s.lost + opens;
  }
}
