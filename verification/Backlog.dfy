/** An outbox that never gets its one deliverable row sent, though no statement fails and Kafka accepts everything. */
module Backlog {
  import opened Domain
  import opened Protocol
  import opened Database
  import opened Draining
  import opened Publisher
  import opened PublisherSteps
  import T = Theorems

  /** A row from before: the first hundred do not decode, the youngest does. */
  function OldRow(n: nat): OutboxRow {
    var payload := if n < 100 then Malformed("") else
      Marshal(TripPublished(V4(n), TripPublishedType, "", "", "", NilUuid, NilUuid, NilUuid, n));
    NewRow(EventHead(TripAggregate, NilUuid, TripPublishedType, payload, n))
  }

  function OldRows(): Outbox {
    map n: nat | n <= 100 :: V4(n) := OldRow(n)
  }

  const GOOD := V4(100)

  ghost function Before(): State {
    State(map[], [], OldRows(), map[], map[], map[], map[], map[], [], [], multiset{}, multiset{})
  }

  lemma BeforeIsInitial()
    ensures Init(Before()) && GOOD in Deliverable(OldRows())
  {
  }

  ghost function FirstIds(n: nat): set<Uuid> {
    set k: nat | k < n :: V4(k)
  }

  lemma {:induction false} FirstIdsCount(n: nat)
    ensures |FirstIds(n)| == n
  {
    if n > 0 {
      FirstIdsCount(n - 1);
      assert FirstIds(n) == FirstIds(n - 1) + {V4(n - 1)};
    }
  }

  /** Undisturbed batches, however many, do not send the good row. */
  lemma GoodRowIsStuck(tables: seq<Outbox>)
    requires QuietBatches(tables) && tables[0] == OldRows()
    ensures GOOD in Deliverable(tables[|tables| - 1])
  {
    BeforeIsInitial();
    FirstIdsCount(100);
    QuietIsBusy(tables, GOOD);
    StuckBehindHundred(tables, FirstIds(100), GOOD);
  }

  /** And there are such batches: the publisher makes as many as it is given ticks, and the good row is still there. */
  method WorkInVain(ticks: seq<Tick>)
    returns (rows: Outbox, ghost run: seq<Action>, ghost s: State, ghost tables: seq<Outbox>)
    requires Quiet(ticks)
    ensures GOOD in rows && rows[GOOD].status == Pending
    ensures Leads(Before(), run, s) && |tables| == |ticks| + 1 && QuietBatches(tables)
    ensures tables[0] == OldRows() && tables[|ticks|] == s.outbox && s.outbox == rows && GOOD in Deliverable(rows)
  {
    var pool := new Pool(OldRows());
    var outbox := new OutboxRepository(pool);
    var kafka := new Producer();
    var metrics := new Metrics();
    var publisher := new OutboxPublisher(pool, outbox, kafka, metrics, 0);
    BeforeIsInitial();
    LeadsNowhere(Before());
    LeadsNext(Before(), [], Before(), PubStep(0, Launch));
    ghost var g, first := PubNext(Before(), 0, Launch), [] + [PubStep(0, Launch)];
    T.ReachablePublishers(Before(), first, g);
    s, run, tables := publisher.Run(ticks, g);
    LeadsOn(Before(), first, g, run, s);
    run := first + run;
    assert ticks[..|ticks|] == ticks;
    GoodRowIsStuck(tables);
    rows := pool.outbox;
  }
}
