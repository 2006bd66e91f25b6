/** The outbox publisher of internal/events: every method is a run of the state machine. */
module Publisher {
  import opened Domain
  import opened Errors
  import opened Protocol
  import opened Draining
  import opened Database
  import opened PublisherSteps
  import P = PublisherProof

  class Producer {
    var log: seq<LogEntry>

    constructor ()
      ensures log == []
    {
      log := [];
    }

    method PublishTripPublished(row: Uuid, event: TripPublished, outcome: SendOutcome) returns (err: Option<Reason>)
      modifies this
      ensures err == if outcome.Accepts? then None else Some(SendFailure(outcome.text))
      ensures log == old(log)
        + Copies(row, ToMessage(event), if outcome.Accepts? then outcome.extraCopies + 1 else outcome.copies)
    {
      var data := Marshal(event);
      var message := Message(event.tripId, data, event.eventId, event.eventType,
                             event.correlationId, event.causationId, event.traceParent);
      var copies := match outcome case Accepts(extra) => extra + 1 case Refuses(n, _) => n;
      log := log + Copies(row, message, copies);
      err := match outcome case Accepts(_) => None case Refuses(_, text) => Some(SendFailure(text));
    }
  }

  class Metrics {
    var success: nat
    var errors: nat
    var failed: nat
    var pending: Option<nat>

    constructor ()
      ensures Shows(Counters(0, 0, 0, None))
    {
      success, errors, failed, pending := 0, 0, 0, None;
    }

    ghost predicate Shows(c: Counters)
      reads this
    {
      success == c.success && errors == c.errors && failed == c.failed && pending == c.pendingGauge
    }
  }

  class OutboxPublisher {
    const pool: Pool
    const outbox: OutboxRepository
    const kafka: Producer
    const metrics: Metrics
    const me: PubId

    constructor (pool: Pool, outbox: OutboxRepository, kafka: Producer, metrics: Metrics, me: PubId)
      requires outbox.pool == pool
      ensures this.pool == pool && this.outbox == outbox && this.kafka == kafka && this.metrics == metrics
      ensures this.me == me
    {
      this.pool, this.outbox, this.kafka, this.metrics, this.me := pool, outbox, kafka, metrics, me;
    }

    /** Tables, topic and counters are those of the system state `g`. */
    ghost predicate Tracks(g: State)
      reads pool, kafka, metrics
    {
      outbox.pool == pool && pool.Holds(g) && kafka.log == g.log && me in g.pubs && metrics.Shows(g.pubs[me].counters)
    }

    /** `tx` is this publisher's open transaction in `g`. */
    ghost predicate Owns(tx: PgTx, g: State)
      reads tx
    {
      && tx.pool == pool && tx.owner == PubTx(me) && me in g.pubs && tx.now == g.pubs[me].now
      && tx.trips == map[] && tx.history == [] && tx.outbox == g.pubs[me].writes
    }

    /** The first half of a turn of the loop: decode, send, count. */
    method Send(event: Picked, outcome: SendOutcome, ghost g: State)
      returns (failure: Option<Reason>, ghost g': State, ghost step: PubAction)
      requires Tracks(g) && AtRow(g, me) && event == g.pubs[me].batch[g.pubs[me].next]
      modifies kafka, metrics
      ensures PubEnabled(g, me, step) && g' == PubNext(g, me, step) && Tracks(g')
      ensures failure == Failure(event, outcome) && KafkaAnswered(g, me, g', event, outcome)
    {
      var message := Unmarshal(event.row.head.payload);
      if message.None? {
        failure := Some(DecodeFailure);
        step := SendDecodeError;
      } else {
        failure := kafka.PublishTripPublished(event.id, message.value, outcome);
        step := if outcome.Accepts? then SendAck(outcome.extraCopies + 1) else SendNack(outcome.copies, outcome.text);
      }
      if failure.Some? {
        metrics.errors := metrics.errors + 1;
        metrics.failed := metrics.failed + 1;
      } else {
        metrics.success := metrics.success + 1;
      }
      g' := PubNext(g, me, step);
      SendStep(g, me, event, outcome);
    }

    /** The second half: record the answer in the row. */
    method MarkRow(tx: PgTx, event: Picked, failure: Option<Reason>, fails: bool, ghost g: State)
      returns (err: Option<Error>, ghost g': State, ghost step: PubAction)
      requires Tracks(g) && Owns(tx, g) && AtMark(g, me, failure) && event == g.pubs[me].batch[g.pubs[me].next]
      modifies tx`outbox, pool
      ensures (err.Some? <==> fails) && step == MarkAction(fails)
      ensures PubEnabled(g, me, step) && g' == PubNext(g, me, step) && Tracks(g') && Owns(tx, g')
      ensures RowRecorded(g, me, g', failure, fails)
    {
      step := MarkAction(fails);
      g' := PubNext(g, me, step);
      MarkStep(g, me, failure, fails);
      if failure.Some? {
        err := outbox.MarkFailed(tx, event.id, failure.value, fails, pool.AsWorld());
      } else {
        err := outbox.MarkSent(tx, event.id, fails, pool.AsWorld());
      }
    }

    /** One turn of the loop. */
    method PublishRow(tx: PgTx, event: Picked, outcome: SendOutcome, markFails: bool, ghost g: State)
      returns (err: Option<Error>, ghost g': State, ghost run: seq<Action>)
      requires Tracks(g) && Owns(tx, g) && AtRow(g, me) && event == g.pubs[me].batch[g.pubs[me].next]
      modifies kafka, metrics, tx`outbox, pool
      ensures Ran(g, me, run, g') && Tracks(g') && Owns(tx, g')
      ensures (err.Some? <==> markFails) && Turned(g, me, g', event, outcome, markFails)
    {
      var failure;
      ghost var sent, send, mark;
      failure, sent, send := Send(event, outcome, g);
      err, g', mark := MarkRow(tx, event, failure, markFails, sent);
      run := [PubStep(me, send), PubStep(me, mark)];
      RanTwo(g, me, send, sent, mark, g');
    }

    /** The send loop.  A failed mark ends it; a failed send does not. */
    method SendRows(tx: PgTx, events: seq<Picked>, send: Answers, markFails: set<Uuid>, ghost g: State)
      returns (err: Option<Error>, ghost g': State, ghost run: seq<Action>)
      requires Tracks(g) && Owns(tx, g) && AtLoop(g, me, events)
      modifies kafka, metrics, tx`outbox, pool
      ensures Tracks(g') && Owns(tx, g')
      ensures SentAll(g, me, run, g', events, send, markFails, err.Some?)
    {
      g', run, err := g, [], None;
      LeadsNowhere(g);
      var k := 0;
      while k < |events|
        invariant k <= |events| && err.None? && Tracks(g') && Owns(tx, g')
        invariant SentSome(g, me, run, g', events, send, markFails, k)
      {
        var event := events[k];
        ghost var before, turn := g', [];
        err, g', turn := PublishRow(tx, event, AnswerFor(send, event.id), event.id in markFails, before);
        TurnDone(g, me, run, before, turn, g', events, send, markFails, k);
        run := run + turn;
        if err.Some? { return; }
        k := k + 1;
      }
      LoopEnds(g, me, run, g', events, send, markFails);
    }

    /** LockPending inside the open transaction. */
    method SelectRows(tx: PgTx, outcome: QueryOutcome, ghost g: State)
      returns (events: seq<Picked>, err: Option<Error>, ghost g': State, ghost order: seq<Uuid>, ghost seen: nat)
      requires Tracks(g) && Owns(tx, g) && JustOpened(g, me)
      modifies pool`eventLocks
      ensures Tracks(g') && Owns(tx, g')
      ensures (err.Some? <==> outcome != QueryOk) && (err.Some? ==> events == [])
      ensures QueryWent(g, outcome, order, seen, events) && g' == Selected(g, me, outcome, order, seen, events)
    {
      events, err, order, seen := outbox.LockPending(tx, outcome);
      g' := Selected(g, me, outcome, order, seen, events);
    }

    /** The end of pgx.BeginFunc: roll back after an error of the block, else commit. */
    method EndBatch(tx: PgTx, blockErr: Option<Error>, commit: CommitOutcome, ghost g: State)
      returns (err: Option<Error>, ghost g': State, ghost run: seq<Action>)
      requires Tracks(g) && Owns(tx, g) && (if blockErr.Some? then g.pubs[me].pc == Doomed else AllMarked(g.pubs[me]))
      modifies tx, pool
      ensures Ran(g, me, run, g')
      ensures g' == EndTx(g, me, blockErr.None? && commit != CommitErrorLost) && Tracks(g')
      ensures err == if blockErr.Some? then blockErr else if commit == CommitOk then None
        else Some(Foreign(FromDatabase))
    {
      if blockErr.Some? {
        tx.Rollback();
        err, g', run := blockErr, EndTx(g, me, false), [PubStep(me, RollbackTx)];
        RanOne(g, me, RollbackTx);
      } else {
        err := tx.Commit(commit);
        g', run := EndTx(g, me, commit != CommitErrorLost), [PubStep(me, CommitTx(commit))];
        RanOne(g, me, CommitTx(commit));
      }
    }

    /** The function that publishBatch hands to pgx.BeginFunc. */
    method RunBlock(tx: PgTx, faults: Faults, send: Answers, ghost g: State)
      returns (err: Option<Error>, ghost g': State, ghost run: seq<Action>, ghost batch: seq<Picked>)
      requires Tracks(g) && Owns(tx, g) && JustOpened(g, me) && Untouched(g.pubs[me])
      modifies kafka, metrics, tx`outbox, pool
      ensures Ran(g, me, run, g') && Tracks(g') && Owns(tx, g')
      ensures err.None? <==> MarksDone(faults, batch)
      ensures BlockRan(g, me, g', faults, send, batch)
    {
      var events;
      ghost var order, seen;
      events, err, g', order, seen := SelectRows(tx, faults.select, g);
      SelectStep(g, me, faults.select, order, seen, events);
      run := SelectActions(me, faults.select, order, seen);
      batch := [];
      if err.Some? {
        QueryEndsBlock(g, me, faults.select, order, seen, send, faults.mark);
        return;
      }
      batch := events;
      ScanIsBatch(g.outbox, g.eventLocks.Keys, order, seen, events);
      LoadedAtLoop(g, me, events);
      ghost var loaded, loop := g', [];
      err, g', loop := SendRows(tx, events, send, faults.mark, loaded);
      RanOn(g, me, run, loaded, loop, g');
      LoopEndsBlock(g, me, g', events, send, faults.mark, err.Some?);
      run := run + loop;
    }

    /** The rest of pgx.BeginFunc, once the transaction is open. */
    method RunTx(tx: PgTx, faults: Faults, send: Answers, ghost g: State)
      returns (err: Option<Error>, ghost ready: State, ghost g': State, ghost run: seq<Action>,
               ghost batch: seq<Picked>)
      requires Tracks(g) && Owns(tx, g) && JustOpened(g, me) && Untouched(g.pubs[me])
      modifies kafka, metrics, tx, pool
      ensures Ran(g, me, run, g') && Tracks(g')
      ensures BlockRan(g, me, ready, faults, send, batch)
      ensures var applied := MarksDone(faults, batch) && faults.commit != CommitErrorLost;
        me in ready.pubs && g' == EndTx(ready, me, applied)
      ensures err.None? <==> MarksDone(faults, batch) && faults.commit == CommitOk
    {
      var blockErr;
      ghost var last;
      blockErr, ready, run, batch := RunBlock(tx, faults, send, g);
      err, g', last := EndBatch(tx, blockErr, faults.commit, ready);
      RanOn(g, me, run, ready, last, g');
      run := run + last;
    }

    /** pgx.BeginFunc around the block. */
    method InTransaction(now: Time, faults: Faults, send: Answers, ghost g: State)
      returns (err: Option<Error>, ghost g': State, ghost run: seq<Action>, ghost batch: seq<Picked>)
      requires Tracks(g) && P.PublisherInv(g) && g.pubs[me].pc == Resting
      modifies pool, kafka, metrics
      ensures Ran(g, me, run, g') && Tracks(g') && g'.pubs[me].pc == Counting
      ensures err.None? <==> Succeeds(faults, batch)
      ensures Processed(g, g', now, faults, send, batch)
    {
      batch := [];
      RestingIsUntouched(g, me);
      OpenStep(g, me, now, faults.begin);
      g', run := Opening(g, me, now, faults.begin), [PubStep(me, OpenAction(now, faults.begin))];
      if faults.begin { return Some(Foreign(FromDatabase)), g', run, batch; }
      var tx := new PgTx(pool, PubTx(me), now);
      ghost var begun, ready, rest := g', g', [];
      err, ready, g', rest, batch := RunTx(tx, faults, send, begun);
      BatchProcessed(g, me, ready, now, faults, send, batch);
      RanOn(g, me, run, begun, rest, g');
      run := run + rest;
    }

    /** The backlog gauge shows the count, unless counting fails. */
    method ShowBacklog(fails: bool, ghost g: State)
      returns (err: Option<Error>, ghost g': State, ghost run: seq<Action>)
      requires Tracks(g) && g.pubs[me].pc == Counting
      modifies metrics
      ensures Ran(g, me, run, g') && Tracks(g') && g'.pubs[me].pc == Resting
      ensures g'.outbox == g.outbox && g'.eventLocks == g.eventLocks && g'.log == g.log
      ensures (err.Some? <==> fails) && (!fails ==> metrics.pending == Some(|PendingIds(pool.outbox)|))
    {
      err := None;
      if fails {
        err := Some(Wrapped(CountingPending, Foreign(FromDatabase)));
      } else {
        var pending := outbox.CountPending();
        metrics.pending := Some(pending);
      }
      RanOne(g, me, Count(!fails));
      g', run := PubNext(g, me, Count(!fails)), [PubStep(me, Count(!fails))];
    }

    /** One tick: a batch, then the backlog gauge. */
    method PublishBatch(now: Time, faults: Faults, send: Answers, ghost g: State)
      returns (err: Option<Error>, ghost g': State, ghost run: seq<Action>, ghost batch: seq<Picked>)
      requires Tracks(g) && P.PublisherInv(g) && g.pubs[me].pc == Resting
      modifies pool, kafka, metrics
      ensures Ran(g, me, run, g') && Tracks(g') && g'.pubs[me].pc == Resting
      ensures err.None? <==> Succeeds(faults, batch) && !faults.count
      ensures Processed(g, g', now, faults, send, batch)
      ensures !faults.count ==> metrics.pending == Some(|PendingIds(pool.outbox)|)
    {
      ghost var ended, count;
      var publishErr, countErr;
      publishErr, ended, run, batch := InTransaction(now, faults, send, g);
      countErr, g', count := ShowBacklog(faults.count, ended);
      StillProcessed(g, ended, g', now, faults, send, batch);
      RanOn(g, me, run, ended, count, g');
      run := run + count;
      err := Join(publishErr, countErr);
    }

    /** One more tick after those so far. */
    method TickOnce(tick: Tick, ghost ticks: seq<Tick>, ghost i: nat, ghost g: State, ghost before: State,
                    ghost run: seq<Action>,
                    ghost tables: seq<Outbox>)
      returns (ghost g': State, ghost longer: seq<Action>)
      requires Tracks(before) && before.pubs[me].pc == Resting && P.PublisherInv(g) && i < |ticks| && tick == ticks[i]
      requires TicksRan(g, me, run, before, ticks, i, tables)
      modifies pool, kafka, metrics
      ensures Tracks(g') && g'.pubs[me].pc == Resting
      ensures TicksRan(g, me, longer, g', ticks, i + 1, tables + [g'.outbox])
    {
      RanKeeps(g, me, run, before);
      var err;
      ghost var batch;
      err, g', longer, batch := PublishBatch(tick.now, tick.faults, tick.send, before);
      TickRan(g, me, run, before, longer, g', ticks, i, batch, tables);
      longer := run + longer;
    }

    /** The ticks until the context is cancelled.  A failed batch is logged, and the next tick tries again. */
    method Run(ticks: seq<Tick>, ghost g: State)
      returns (ghost g': State, ghost run: seq<Action>, ghost tables: seq<Outbox>)
      requires Tracks(g) && P.PublisherInv(g) && g.pubs[me].pc == Resting
      modifies pool, kafka, metrics
      ensures TicksRan(g, me, run, g', ticks, |ticks|, tables) && Tracks(g') && g'.pubs[me].pc == Resting
      ensures Undisturbed(g, ticks) && Suffices(g.outbox, |ticks|) ==> Deliverable(g'.outbox) == {}
    {
      g', run, tables := g, [], [g.outbox];
      LeadsNowhere(g);
      var i := 0;
      while i < |ticks|
        invariant i <= |ticks| && TicksRan(g, me, run, g', ticks, i, tables) && Tracks(g') && g'.pubs[me].pc == Resting
      {
        g', run := TickOnce(ticks[i], ticks, i, g, g', run, tables);
        tables := tables + [g'.outbox];
        i := i + 1;
      }
      TicksDrain(g, g', ticks, tables);
    }
  }
}
