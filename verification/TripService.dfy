/** The trip commands of internal/service and internal/domain: every method is a run of the state machine. */
module TripService {
  import opened Domain
  import opened Errors
  import opened Serial
  import opened Protocol
  import opened Database
  import opened CallSteps
  import opened CallRuns

  /** `tx` is the open transaction of call `id` in `g`. */
  ghost predicate Runs(tx: PgTx, id: CallId, g: State)
    reads tx
  {
    && tx.owner == CallTx(id) && id in g.calls
    && var c := g.calls[id];
       && tx.now == c.now
       && tx.trips == TripWrites(c) && tx.history == c.historyWrite && tx.outbox == EventWrites(c)
  }

  function TripWrites(c: Call): map<Uuid, Trip> {
    match c.tripWrite case None => map[] case Some(trip) => map[c.cmd.Key() := trip]
  }

  function EventWrites(c: Call): Outbox {
    match c.eventWrite case None => map[] case Some(row) => map[PublishedEventId(c.cmd.Key()) := row]
  }

  lemma MergeOne<V>(rows: map<Uuid, V>, key: Uuid, row: V)
    ensures rows + map[key := row] == rows[key := row]
  {
  }

  /** The end of a transaction merges its private writes, or drops them. */
  lemma FinishMerges(s: State, id: CallId, reply: Reply, applied: bool)
    requires id in s.calls && (applied ==> s.calls[id].tripWrite.Some?)
    ensures var c, s' := s.calls[id], Finish(s, id, reply, applied);
      && s'.eventLocks == s.eventLocks && s'.tripLocks == Released(s.tripLocks, id)
      && s'.keyLocks == Released(s.keyLocks, id)
      && s'.trips == (if applied then s.trips + TripWrites(c) else s.trips)
      && s'.history == (if applied then s.history + c.historyWrite else s.history)
      && s'.outbox == (if applied then s.outbox + EventWrites(c) else s.outbox)
  {
    var c := s.calls[id];
    if applied { MergeOne(s.trips, c.cmd.Key(), c.tripWrite.value); }
    if c.eventWrite.Some? { MergeOne(s.outbox, PublishedEventId(c.cmd.Key()), c.eventWrite.value); }
  }

  /** The next statement of call `id` executes in `g`: at once, or in `world`, if it has to wait. */
  ghost predicate Awaits(pool: Pool, world: World, id: CallId, cmd: Command, g: State)
    reads pool
  {
    WorldOf(g) == if Blocked(pool.AsWorld(), id, cmd) then world else pool.AsWorld()
  }

  class TripUsecase {
    const pool: Pool
    const trips: TripRepository
    const outbox: OutboxRepository

    constructor (pool: Pool, trips: TripRepository, outbox: OutboxRepository)
      requires trips.pool == pool && outbox.pool == pool
      ensures this.pool == pool && this.trips == trips && this.outbox == outbox
    {
      this.pool, this.trips, this.outbox := pool, trips, outbox;
    }

    ghost predicate Wired() {
      trips.pool == pool && outbox.pool == pool
    }

    /** GetForUpdateByID, and the layer that a publish adds to its error. */
    method Load(tx: PgTx, id: CallId, cmd: Command, fails: bool, world: World, ghost g: State)
      returns (trip: Option<Trip>, err: Option<Error>, ghost g': State, ghost run: seq<Action>)
      requires Wired() && tx.pool == pool && Awaits(pool, world, id, cmd, g) && Runs(tx, id, g)
      requires !cmd.Create? && AtBlock(g, id, cmd, fails)
      modifies pool
      ensures Worked(g, id, run, g') && pool.Holds(g') && Runs(tx, id, g')
      ensures err == LoadError(cmd, g.trips, fails) && AfterLoad(g, id, cmd, g', err)
      ensures err.None? ==> trip == Some(g.trips[cmd.Key()])
    {
      g', run := LoadStep(g, id, cmd, fails);
      trip, err := trips.GetForUpdateByID(tx, cmd.Key(), fails, world);
      if err.Some? && cmd.Publish? {
        err := Some(Wrapped(InGetForUpdateByID, err.value));
      }
    }

    /** Update, and the layer that a publish adds to its error. */
    method Save(tx: PgTx, id: CallId, cmd: Command, trip: Trip, fails: bool, ghost g: State)
      returns (updated: Option<Trip>, err: Option<Error>, ghost g': State, ghost run: seq<Action>)
      requires Wired() && tx.pool == pool && pool.Holds(g) && Runs(tx, id, g) && AtUpdate(g, id, cmd, trip)
      requires cmd.Key() in g.trips && g.trips[cmd.Key()].id == cmd.Key() && trip.id == cmd.Key()
      modifies tx`trips, tx`history, pool
      ensures Worked(g, id, run, g') && pool.Holds(g') && Runs(tx, id, g')
      ensures err == if fails then Some(QueryError(cmd, Writing)) else None
      ensures if fails then Aborts(g, id, g', QueryError(cmd, Writing))
        else SameLocks(g, g') && AfterUpdate(g, id, cmd, trip, g')
      ensures !fails ==> updated == Some(UpdatedTrip(g.trips[cmd.Key()], trip, tx.now))
    {
      g', run := SaveStep(g, id, cmd, trip, fails);
      assert g.tripLocks[cmd.Key() := id] == g.tripLocks;
      updated, err := trips.Update(tx, trip, fails, pool.AsWorld());
      if err.Some? && cmd.Publish? {
        err := Some(Wrapped(InUpdate, err.value));
      }
    }

    /** Build the event of the updated trip, and insert it. */
    method InsertEvent(tx: PgTx, id: CallId, cmd: Command, updated: Trip, fails: bool, ghost g: State)
      returns (err: Option<Error>, ghost g': State, ghost run: seq<Action>)
      requires Wired() && tx.pool == pool && pool.Holds(g) && Runs(tx, id, g)
      requires AtInsertEvent(g, id, cmd, updated) && updated.id == cmd.Key()
      modifies tx`outbox, pool
      ensures Worked(g, id, run, g') && pool.Holds(g') && Runs(tx, id, g')
      ensures err == if fails then Some(QueryError(cmd, Inserting)) else None
      ensures if fails then Aborts(g, id, g', QueryError(cmd, Inserting)) else AfterInsertEvent(g, id, cmd, updated, g')
    {
      g', run := InsertStep(g, id, cmd, updated, fails);
      var eventId := NewEventId(updated.id, TripPublishedType);
      var event := TripPublished(eventId, TripPublishedType, cmd.meta.correlationId, cmd.meta.causationId,
                                 cmd.meta.traceParent, updated.id, updated.driverId, cmd.clientId, cmd.meta.occurredAt);
      var payload := Marshal(event);
      var head := EventHead(TripAggregate, updated.id, event.eventType, payload, tx.now);
      err := outbox.CreateOutboxEvent(tx, eventId, head, fails, pool.AsWorld());
      if err.Some? {
        err := Some(Wrapped(InCreateOutboxEvent, err.value));
      }
    }

    /** The checks of PublishTrip on the row in memory. */
    method CheckLoaded(trip: Trip, cmd: Command) returns (err: Option<Error>)
      requires cmd.Publish?
      ensures err == if Verify(cmd, trip) == Success then None else Some(VerdictError(cmd, Verify(cmd, trip)))
      ensures var driver := trip.driverId == cmd.clientId;
        && (err == Some(Wrapped(ClientIsNotDriver, Base(ErrForbidden))) <==> !driver)
        && (err == Some(Wrapped(OfTrip, Base(ErrTripAlreadyPublished))) <==> driver && trip.status == Published)
        && (err == Some(Wrapped(InvalidStatus, Base(ErrConflict)))
            <==> driver && trip.status != Published && trip.status != Draft)
        && (err == None <==> driver && trip.status == Draft)
    {
      if trip.driverId != cmd.clientId { return Some(Wrapped(ClientIsNotDriver, Base(ErrForbidden))); }
      if trip.status == Published { return Some(Wrapped(OfTrip, Base(ErrTripAlreadyPublished))); }
      if trip.status != Draft { return Some(Wrapped(InvalidStatus, Base(ErrConflict))); }
      err := None;
    }

    /** What PublishTrip does once it has its row: check it, write it back as published, and insert the event. */
    method PublishLocked(tx: PgTx, id: CallId, cmd: Command, loaded: Trip, faults: CallFaults, ghost g: State)
      returns (err: Option<Error>, ghost g': State, ghost run: seq<Action>)
      requires Wired() && tx.pool == pool && pool.Holds(g) && Runs(tx, id, g) && cmd.Publish? && Arises(g)
      requires AtVerify(g, id, cmd, loaded) && cmd.Key() in g.trips && g.trips[cmd.Key()] == loaded
      modifies tx, pool
      ensures Worked(g, id, run, g') && pool.Holds(g') && Runs(tx, id, g')
      ensures err == RowResult(cmd, loaded, faults) && BlockDone(g', id, err)
    {
      var updated;
      ghost var before, step := g, [];
      ArisesInOrder(g);
      g', run := JudgeStep(g, id, cmd, loaded);
      err := CheckLoaded(loaded, cmd);
      if err.Some? { return; }
      var trip := loaded.(status := Published);
      before := g';
      updated, err, g', step := Save(tx, id, cmd, trip, faults.write, before);
      WorkedOn(g, id, run, before, step, g');
      run := run + step;
      if err.Some? { return; }
      before := g';
      ArisesOn(g, run, before);
      KeyIsFree(before, id, cmd, updated.value);
      err, g', step := InsertEvent(tx, id, cmd, updated.value, faults.insert, before);
      WorkedOn(g, id, run, before, step, g');
      run := run + step;
    }

    /** Lock the row, and publish the trip. */
    method PublishTrip(tx: PgTx, id: CallId, cmd: Command, faults: CallFaults, world: World, ghost g: State)
      returns (err: Option<Error>, ghost g': State, ghost run: seq<Action>)
      requires Wired() && tx.pool == pool && Awaits(pool, world, id, cmd, g) && Runs(tx, id, g)
      requires cmd.Publish? && Arises(g) && AtBlock(g, id, cmd, faults.read)
      modifies tx, pool
      ensures Worked(g, id, run, g') && pool.Holds(g') && Runs(tx, id, g')
      ensures err == BlockResult(cmd, g.trips, faults) && BlockDone(g', id, err)
    {
      var loaded;
      loaded, err, g', run := Load(tx, id, cmd, faults.read, world, g);
      if err.Some? { return; }
      ghost var before, rest := g', [];
      ArisesOn(g, run, before);
      err, g', rest := PublishLocked(tx, id, cmd, loaded.value, faults, before);
      WorkedOn(g, id, run, before, rest, g');
      run := run + rest;
    }

    /** Insert the draft and the first row of its history. */
    method CreateTrip(tx: PgTx, id: CallId, cmd: Command, faults: CallFaults, world: World, ghost g: State)
      returns (created: Option<Trip>, err: Option<Error>, ghost g': State, ghost run: seq<Action>)
      requires Wired() && tx.pool == pool && Awaits(pool, world, id, cmd, g) && Runs(tx, id, g)
      requires cmd.Create? && AtBlock(g, id, cmd, faults.write)
      modifies tx`trips, tx`history, pool
      ensures Worked(g, id, run, g') && pool.Holds(g') && Runs(tx, id, g')
      ensures err == CreateResult(cmd, g.trips, faults) && BlockDone(g', id, err)
      ensures err.None? ==> created == Some(CreatedTrip(cmd, tx.now))
    {
      g', run := CreateStep(g, id, cmd, faults);
      var draft := Trip(NilUuid, cmd.driverId, cmd.fromPoint, cmd.toPoint, cmd.departureTime, cmd.seats, Draft, 0, 0);
      created, err := trips.Create(tx, draft, cmd.newId, faults.write, faults.insert, world);
      if err.Some? {
        err := Some(Wrapped(InCreate, err.value));
      }
    }
  }

  /** The row in memory that `Start` is called on. */
  class LoadedTrip {
    var row: Trip

    constructor (row: Trip)
      ensures this.row == row
    {
      this.row := row;
    }

    method Start() returns (err: Option<Error>)
      modifies this
      ensures err == if old(row).status == Published then None else Some(Base(ErrConflict))
      ensures row == if err.None? then old(row).(status := Started) else old(row)
    {
      if row.status != Published { return Some(Base(ErrConflict)); }
      row := row.(status := Started);
      err := None;
    }
  }

  function Total(totals: map<Label, nat>, result: Label): nat {
    if result in totals then totals[result] else 0
  }

  /** The total of `result` has gone up by one, and no other has changed. */
  ghost predicate OneMore(before: map<Label, nat>, result: Label, after: map<Label, nat>) {
    forall other: Label :: Total(after, other) == Total(before, other) + if other == result then 1 else 0
  }

  /** The totals of publish and create calls, by result. */
  class ServiceMetrics {
    var published: map<Label, nat>
    var created: map<Label, nat>

    constructor ()
      ensures published == map[] && created == map[]
    {
      published, created := map[], map[];
    }

    method CountPublish(result: Label)
      modifies this`published
      ensures OneMore(old(published), result, published)
    {
      published := published[result := Total(published, result) + 1];
    }

    method CountCreate(result: Label)
      modifies this`created
      ensures OneMore(old(created), result, created)
    {
      created := created[result := Total(created, result) + 1];
    }
  }

  /** The contract service, with a record of what it has been asked. */
  class ContractService {
    var asked: seq<Permission>

    constructor ()
      ensures asked == []
    {
      asked := [];
    }

    /** `answer` is what the request comes to. */
    method CheckService(companyId: Uuid, serviceCode: ServiceCode, answer: CheckOutcome) returns (outcome: CheckOutcome)
      modifies this
      ensures outcome == answer && asked == old(asked) + [Permission(companyId, serviceCode)]
    {
      asked := asked + [Permission(companyId, serviceCode)];
      outcome := answer;
    }
  }

  class TripService {
    const pool: Pool
    const usecase: TripUsecase
    const contracts: ContractService
    const metrics: ServiceMetrics

    constructor (pool: Pool, usecase: TripUsecase, contracts: ContractService, metrics: ServiceMetrics)
      requires usecase.pool == pool
      ensures this.pool == pool && this.usecase == usecase && this.contracts == contracts && this.metrics == metrics
    {
      this.pool, this.usecase, this.contracts, this.metrics := pool, usecase, contracts, metrics;
    }

    ghost predicate Wired() {
      usecase.pool == pool && usecase.Wired()
    }

    /** The second half of the wrapper `tx`: roll back if the block has failed, else commit. */
    method End(tx: PgTx, id: CallId, cmd: Command, blockErr: Option<Error>, commit: CommitOutcome, ghost g: State,
               ghost ready: State)
      returns (err: Option<Error>, ghost g': State, ghost run: seq<Action>)
      requires pool.Holds(ready) && tx.pool == pool && Runs(tx, id, ready) && Ready(g, id, cmd, ready)
      requires BlockDone(ready, id, blockErr) && Arises(ready)
      modifies tx, pool
      ensures Made(ready, id, run, g') && pool.Holds(g')
      ensures err == match blockErr
                     case Some(e) => Some(Wrapped(InBlock, e))
                     case None => if commit == CommitOk then None else Some(Wrapped(InCommit, Foreign(FromDatabase)))
      ensures var applied := blockErr.None? && commit != CommitErrorLost;
        Answered(g, id, cmd, ready.calls[id].now, g', InService(cmd, err), applied)
    {
      g', run := EndStep(g, id, cmd, blockErr, commit, ready);
      FinishMerges(ready, id, ReplyTo(FinalError(cmd, blockErr, commit)), blockErr.None? && commit != CommitErrorLost);
      if blockErr.Some? {
        tx.Rollback();
        return Some(Wrapped(InBlock, blockErr.value)), g', run;
      }
      err := tx.Commit(commit);
      if err.Some? {
        err := Some(Wrapped(InCommit, err.value));
      }
    }

    /** The checks of StartTrip on the row in memory, and the start itself. */
    method StartLoaded(row: Trip, cmd: Command) returns (started: Trip, err: Option<Error>)
      requires cmd.Start?
      ensures err == if Verify(cmd, row) == Success then None else Some(VerdictError(cmd, Verify(cmd, row)))
      ensures var driver := row.driverId == cmd.clientId;
        && (err == Some(Base(ErrForbidden)) <==> !driver)
        && (err == Some(Base(ErrConflict)) <==> driver && row.status != Published)
        && (err == None <==> driver && row.status == Published)
      ensures err.None? ==> started == row.(status := Started)
    {
      if row.driverId != cmd.clientId { return row, Some(Base(ErrForbidden)); }
      var trip := new LoadedTrip(row);
      err := trip.Start();
      started := trip.row;
    }

    /** What the block of StartTrip does once it has its row: check the driver, start the trip, write it back. */
    method StartLocked(tx: PgTx, id: CallId, cmd: Command, loaded: Trip, faults: CallFaults, ghost g: State)
      returns (err: Option<Error>, ghost g': State, ghost run: seq<Action>)
      requires Wired() && tx.pool == pool && pool.Holds(g) && Runs(tx, id, g) && cmd.Start? && Arises(g)
      requires AtVerify(g, id, cmd, loaded) && cmd.Key() in g.trips && g.trips[cmd.Key()] == loaded
      modifies tx, pool
      ensures Worked(g, id, run, g') && pool.Holds(g') && Runs(tx, id, g')
      ensures err == RowResult(cmd, loaded, faults) && BlockDone(g', id, err)
    {
      var trip, updated;
      ghost var before, step;
      ArisesInOrder(g);
      before, run := JudgeStep(g, id, cmd, loaded);
      trip, err := StartLoaded(loaded, cmd);
      if err.Some? { return err, before, run; }
      updated, err, g', step := usecase.Save(tx, id, cmd, trip, faults.write, before);
      WorkedOn(g, id, run, before, step, g');
      run := run + step;
    }

    /** The block of StartTrip: lock the row, and start the trip. */
    method StartBlock(tx: PgTx, id: CallId, cmd: Command, faults: CallFaults, world: World, ghost g: State)
      returns (err: Option<Error>, ghost g': State, ghost run: seq<Action>)
      requires Wired() && tx.pool == pool && Awaits(pool, world, id, cmd, g) && Runs(tx, id, g)
      requires cmd.Start? && Arises(g) && AtBlock(g, id, cmd, faults.read)
      modifies tx, pool
      ensures Worked(g, id, run, g') && pool.Holds(g') && Runs(tx, id, g')
      ensures err == BlockResult(cmd, g.trips, faults) && BlockDone(g', id, err)
    {
      var loaded;
      loaded, err, g', run := usecase.Load(tx, id, cmd, faults.read, world, g);
      if err.Some? { return; }
      ghost var before, rest := g', [];
      ArisesOn(g, run, before);
      err, g', rest := StartLocked(tx, id, cmd, loaded.value, faults, before);
      WorkedOn(g, id, run, before, rest, g');
      run := run + rest;
    }

    /** The function that the service method hands to `tx`. */
    method RunBlock(tx: PgTx, id: CallId, cmd: Command, faults: CallFaults, world: World, ghost g: State)
      returns (err: Option<Error>, ghost g': State, ghost run: seq<Action>)
      requires Wired() && tx.pool == pool && Awaits(pool, world, id, cmd, g) && Runs(tx, id, g)
      requires Arises(g) && AtBlock(g, id, cmd, FirstFails(cmd, faults))
      modifies tx, pool
      ensures Worked(g, id, run, g') && pool.Holds(g') && Runs(tx, id, g')
      ensures err == BlockFailure(cmd, g.trips, faults) && BlockDone(g', id, err)
    {
      match cmd {
        case Publish(_, _, _) => err, g', run := usecase.PublishTrip(tx, id, cmd, faults, world, g);
        case Start(_, _) => err, g', run := StartBlock(tx, id, cmd, faults, world, g);
        case Create(_, _, _, _, _, _) =>
          var created;
          created, err, g', run := usecase.CreateTrip(tx, id, cmd, faults, world, g);
      }
    }

    /** The block and the end of a transaction that has been begun. */
    method RunTx(tx: PgTx, id: CallId, cmd: Command, faults: CallFaults, world: World, ghost g: State)
      returns (err: Option<Error>, ghost g': State, ghost run: seq<Action>)
      requires Wired() && tx.pool == pool && Awaits(pool, world, id, cmd, g) && Runs(tx, id, g)
      requires Arises(g) && AtBlock(g, id, cmd, FirstFails(cmd, faults)) && Ready(g, id, cmd, g) && !faults.begin
      modifies tx, pool
      ensures Made(g, id, run, g') && pool.Holds(g')
      ensures err == TxFailure(cmd, g.trips, faults)
      ensures Answered(g, id, cmd, tx.now, g', InService(cmd, err), Applies(cmd, g.trips, faults))
    {
      ghost var ready, last;
      err, ready, run := RunBlock(tx, id, cmd, faults, world, g);
      ArisesOn(g, run, ready);
      ReadyOn(g, id, cmd, g, run, ready);
      err, g', last := End(tx, id, cmd, err, faults.commit, g, ready);
      MadeOn(g, id, run, ready, last, g');
      run := run + last;
    }

    /**
     * `tx`: begin, run the block, and commit or roll back.  If the first statement of the block has to wait, `pause`
     * is what the others do meanwhile, and `world` is what they make of the database.
     */
    method Tx(id: CallId, cmd: Command, faults: CallFaults, now: Time, world: World, ghost g: State, ghost pause: Pause)
      returns (err: Option<Error>, ghost g': State, ghost run: seq<Action>)
      requires Wired() && MayCall(g, id) && Arises(LetInState(g, id, cmd)) && pool.Holds(g)
      requires !faults.begin ==> MayPause(g, id, cmd, now, faults, world, pause)
      modifies pool
      ensures Attended(LetInState(g, id, cmd), id, run, if faults.begin then [] else pause.others, g') && pool.Holds(g')
      ensures var base := WorkState(g, !faults.begin, pause);
        && err == TxFailure(cmd, base.trips, faults)
        && Answered(base, id, cmd, now, g', InService(cmd, err), !faults.begin && Applies(cmd, base.trips, faults))
    {
      ghost var admitted := LetInState(g, id, cmd);
      if faults.begin {
        g', run := BeginFails(g, id, cmd, now);
        AttendedAlone(admitted, id, run, g');
        return Some(Wrapped(InBegin, Foreign(FromDatabase))), g', run;
      }
      ghost var begun, begin := BegunState(g, id, cmd, now), [CallStep(id, Begin(now))];
      MadeBegin(g, id, cmd, now);
      ArisesOn(admitted, begin, begun);
      var tx := new PgTx(pool, CallTx(id), now);
      Awoken(begun, id, cmd, FirstFails(cmd, faults), pause);
      err, g', run := RunTx(tx, id, cmd, faults, world, pause.end);
      AttendedAround(admitted, id, begin, begun, pause.others, pause.end, run, g');
      run := begin + (pause.others + run);
    }

    /** Run the transaction and count its result, under the error as it was before the last layer of context. */
    method PublishInTx(id: CallId, cmd: Command, faults: CallFaults, now: Time, world: World, ghost g: State,
                       ghost pause: Pause)
      returns (err: Option<Error>, ghost g': State, ghost run: seq<Action>)
      requires Wired() && cmd.Publish? && MayCall(g, id) && Arises(LetInState(g, id, cmd)) && pool.Holds(g)
      requires !faults.begin ==> MayPause(g, id, cmd, now, faults, world, pause)
      modifies pool, metrics`published
      ensures Attended(LetInState(g, id, cmd), id, run, if faults.begin then [] else pause.others, g') && pool.Holds(g')
      ensures var base := WorkState(g, !faults.begin, pause);
        && err == InService(cmd, TxFailure(cmd, base.trips, faults))
        && Answered(base, id, cmd, now, g', err, !faults.begin && Applies(cmd, base.trips, faults))
      ensures OneMore(old(metrics.published), if err.None? then LabelSuccess else PublishTripResult(err.value),
                      metrics.published)
    {
      var result := LabelSuccess;
      err, g', run := Tx(id, cmd, faults, now, world, g, pause);
      LabelSurvives(cmd, err);
      if err.Some? {
        result := PublishTripResult(err.value);
        err := Some(Wrapped(InPublishTrip, err.value));
      }
      metrics.CountPublish(result);
    }

    /** The request to the contract service, which comes first. */
    method CheckPermission(id: CallId, cmd: Command, code: ServiceCode, answer: CheckOutcome, ghost g: State)
      returns (check: CheckOutcome, ghost admitted: State, ghost first: seq<Action>)
      requires !cmd.Create? && MayCall(g, id)
      modifies contracts
      ensures check == answer && contracts.asked == old(contracts.asked) + [Permission(cmd.clientId, code)]
      ensures Made(g, id, first, admitted) && Arises(admitted) && Admitted(g, id, cmd, admitted, CheckFailure(check))
    {
      ArisesInOrder(g);
      check := contracts.CheckService(cmd.clientId, code, answer);
      admitted, first := MadeCheck(g, id, cmd, check);
      ArisesOn(g, first, admitted);
    }

    /** Check the permission, and only then touch the database. */
    method PublishTrip(id: CallId, cmd: Command, answer: CheckOutcome, faults: CallFaults, now: Time, world: World,
                       ghost g: State, ghost pause: Pause)
      returns (err: Option<Error>, ghost g': State, ghost run: seq<Action>)
      requires Wired() && cmd.Publish? && MayCall(g, id) && pool.Holds(g)
      requires Opens(answer, faults) ==> MayPause(g, id, cmd, now, faults, world, pause)
      modifies pool, contracts, metrics`published
      ensures contracts.asked == old(contracts.asked) + [Permission(cmd.clientId, TripCreation)]
      ensures Attended(g, id, run, if Opens(answer, faults) then pause.others else [], g') && pool.Holds(g')
      ensures var base := WorkState(g, Opens(answer, faults), pause);
        && err == Answer(cmd, answer, base.trips, faults)
        && Answered(base, id, cmd, now, g', err, Opens(answer, faults) && Applies(cmd, base.trips, faults))
      ensures OneMore(old(metrics.published), if err.None? then LabelSuccess else PublishTripResult(err.value),
                      metrics.published)
    {
      var check;
      ghost var admitted, first;
      check, admitted, first := CheckPermission(id, cmd, TripCreation, answer, g);
      if check != Allowed {
        TurnedAway(g, id, cmd, now, admitted, CheckError(check));
        AttendedAlone(g, id, first, admitted);
        metrics.CountPublish(PublishTripResult(CheckError(check)));
        return Some(CheckError(check)), admitted, first;
      }
      err, g', run := PublishInTx(id, cmd, faults, now, world, g, pause);
      AttendedAfter(g, id, first, admitted, run, if faults.begin then [] else pause.others, g');
      run := first + run;
    }

    method StartTrip(id: CallId, cmd: Command, answer: CheckOutcome, faults: CallFaults, now: Time, world: World,
                     ghost g: State, ghost pause: Pause)
      returns (err: Option<Error>, ghost g': State, ghost run: seq<Action>)
      requires Wired() && cmd.Start? && MayCall(g, id) && pool.Holds(g)
      requires Opens(answer, faults) ==> MayPause(g, id, cmd, now, faults, world, pause)
      modifies pool, contracts
      ensures contracts.asked == old(contracts.asked) + [Permission(cmd.clientId, TripStart)]
      ensures Attended(g, id, run, if Opens(answer, faults) then pause.others else [], g') && pool.Holds(g')
      ensures var base := WorkState(g, Opens(answer, faults), pause);
        && err == Answer(cmd, answer, base.trips, faults)
        && Answered(base, id, cmd, now, g', err, Opens(answer, faults) && Applies(cmd, base.trips, faults))
    {
      var check;
      ghost var admitted, first;
      check, admitted, first := CheckPermission(id, cmd, TripStart, answer, g);
      if check != Allowed {
        TurnedAway(g, id, cmd, now, admitted, CheckError(check));
        AttendedAlone(g, id, first, admitted);
        return Some(CheckError(check)), admitted, first;
      }
      err, g', run := Tx(id, cmd, faults, now, world, g, pause);
      AttendedAfter(g, id, first, admitted, run, if faults.begin then [] else pause.others, g');
      run := first + run;
    }

    /** Run the transaction, and count its result. */
    method CreateInTx(id: CallId, cmd: Command, faults: CallFaults, now: Time, world: World, ghost g: State,
                      ghost pause: Pause)
      returns (err: Option<Error>, ghost g': State, ghost run: seq<Action>)
      requires Wired() && cmd.Create? && MayCall(g, id) && Arises(LetInState(g, id, cmd)) && pool.Holds(g)
      requires !faults.begin ==> MayPause(g, id, cmd, now, faults, world, pause)
      modifies pool, metrics`created
      ensures Attended(LetInState(g, id, cmd), id, run, if faults.begin then [] else pause.others, g') && pool.Holds(g')
      ensures var base := WorkState(g, !faults.begin, pause);
        && err == InService(cmd, TxFailure(cmd, base.trips, faults))
        && Answered(base, id, cmd, now, g', err, !faults.begin && Applies(cmd, base.trips, faults))
      ensures OneMore(old(metrics.created), if err.None? then LabelSuccess else LabelInternalError, metrics.created)
    {
      var result := LabelSuccess;
      err, g', run := Tx(id, cmd, faults, now, world, g, pause);
      if err.Some? {
        result := LabelInternalError;
        err := Some(Wrapped(InCreateTrip, err.value));
      }
      metrics.CountCreate(result);
    }

    /** Validate, and only then touch the database. */
    method CreateTrip(id: CallId, cmd: Command, clock: Time, faults: CallFaults, now: Time, world: World,
                      ghost g: State, ghost pause: Pause)
      returns (err: Option<Error>, ghost g': State, ghost run: seq<Action>)
      requires Wired() && cmd.Create? && MayCall(g, id) && pool.Holds(g)
      requires ValidCreate(cmd, clock) && !faults.begin ==> MayPause(g, id, cmd, now, faults, world, pause)
      modifies pool, metrics`created
      ensures var opens := ValidCreate(cmd, clock) && !faults.begin;
        && Attended(g, id, run, if opens then pause.others else [], g') && pool.Holds(g')
        && var base := WorkState(g, opens, pause);
           && err == CreateAnswer(cmd, clock, base.trips, faults)
           && Answered(base, id, cmd, now, g', err, opens && Applies(cmd, base.trips, faults))
      ensures err == Some(InvalidCommand()) <==>
        || cmd.driverId == NilUuid || cmd.departureTime <= clock || cmd.seats <= 0
        || (forall c :: c in cmd.fromPoint ==> IsSpace(c)) || (forall c :: c in cmd.toPoint ==> IsSpace(c))
      ensures OneMore(old(metrics.created),
                      if err.None? then LabelSuccess
                      else if err == Some(InvalidCommand()) then LabelValidationError else LabelInternalError,
                      metrics.created)
    {
      ghost var admitted, first;
      ArisesInOrder(g);
      admitted, first := MadeValidate(g, id, cmd, clock);
      if !ValidCreate(cmd, clock) {
        TurnedAway(g, id, cmd, now, admitted, InvalidCommand());
        AttendedAlone(g, id, first, admitted);
        metrics.CountCreate(LabelValidationError);
        return Some(InvalidCommand()), admitted, first;
      }
      ArisesOn(g, first, admitted);
      err, g', run := CreateInTx(id, cmd, faults, now, world, g, pause);
      AttendedAfter(g, id, first, admitted, run, if faults.begin then [] else pause.others, g');
      run := first + run;
    }
  }
}
