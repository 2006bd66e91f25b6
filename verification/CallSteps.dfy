/** The statements of one command call as runs of the state machine. */
module CallSteps {
  import opened Domain
  import opened Errors
  import opened Serial
  import opened Protocol
  import C = CommandProof

  // ----- runs of one call -----

  ghost predicate OnlyCall(id: CallId, run: seq<Action>) {
    forall a :: a in run ==> a.CallStep? && a.call == id
  }

  /** What the steps of call `id` have done since `g`. */
  ghost predicate Made(g: State, id: CallId, run: seq<Action>, g': State) {
    Leads(g, run, g') && OnlyCall(id, run)
  }

  lemma MadeOn(g: State, id: CallId, run: seq<Action>, g': State, run': seq<Action>, g'': State)
    requires Made(g, id, run, g') && Made(g', id, run', g'')
    ensures Made(g, id, run + run', g'')
  {
    LeadsOn(g, run, g', run', g'');
  }

  lemma MadeOne(g: State, id: CallId, a: CallAction)
    requires CallEnabled(g, id, a)
    ensures Made(g, id, [CallStep(id, a)], CallNext(g, id, a))
  {
    LeadsNowhere(g);
    LeadsNext(g, [], g, CallStep(id, a));
    assert [] + [CallStep(id, a)] == [CallStep(id, a)];
  }

  // ----- single statements -----

  /** The committed tables and the publishers' world are as before. */
  predicate Unseen(g: State, g': State) {
    g'.trips == g.trips && g'.history == g.history && Publishers(g') == Publishers(g)
  }

  /** `g'` differs from `g` in private matters of call `id` only, apart from locks that the call holds. */
  ghost predicate Privately(g: State, id: CallId, g': State) {
    && id in g.calls && id in g'.calls && Unseen(g, g')
    && g'.calls[id].cmd == g.calls[id].cmd && g'.calls[id].now == g.calls[id].now
    && Released(g'.tripLocks, id) == Released(g.tripLocks, id) && Released(g'.keyLocks, id) == Released(g.keyLocks, id)
  }

  lemma ReleasedInsert(locks: map<Uuid, CallId>, k: Uuid, id: CallId)
    requires k !in locks
    ensures Released(locks[k := id], id) == Released(locks, id)
  {
  }

  /** Steps made privately, one run after another. */
  ghost predicate Worked(g: State, id: CallId, run: seq<Action>, g': State) {
    Made(g, id, run, g') && Privately(g, id, g')
  }

  lemma WorkedOn(g: State, id: CallId, run: seq<Action>, g': State, run': seq<Action>, g'': State)
    requires Worked(g, id, run, g') && Worked(g', id, run', g'')
    ensures Worked(g, id, run + run', g'')
  {
    MadeOn(g, id, run, g', run', g'');
  }

  predicate At(g: State, id: CallId, cmd: Command, pc: CallPc) {
    id in g.calls && g.calls[id].cmd == cmd && g.calls[id].pc == pc
  }

  /** The call is about to read, and the row lock is free, so it does not wait. */
  predicate AtRead(g: State, id: CallId, cmd: Command) {
    && At(g, id, cmd, Reading) && !cmd.Create? && C.NoWrites(g.calls[id])
    && (cmd.Key() in g.trips ==> cmd.Key() !in g.tripLocks)
  }

  /** The call holds the lock of its row, so none of its further statements waits for it. */
  predicate AtVerify(g: State, id: CallId, cmd: Command, trip: Trip) {
    && At(g, id, cmd, Verifying) && !cmd.Create? && C.NoWrites(g.calls[id]) && g.calls[id].loaded == Some(trip)
    && C.HoldsKey(g.calls[id], id, g.tripLocks)
  }

  predicate AtUpdate(g: State, id: CallId, cmd: Command, trip: Trip) {
    && At(g, id, cmd, Writing) && !cmd.Create? && C.NoWrites(g.calls[id]) && g.calls[id].loaded == Some(trip)
    && C.HoldsKey(g.calls[id], id, g.tripLocks)
  }

  /** The call has failed, and its private writes are those of before. */
  predicate Aborts(g: State, id: CallId, g': State, err: Error) {
    id in g.calls && id in g'.calls && g'.calls[id] == g.calls[id].(pc := Aborting(err)) && SameLocks(g, g')
  }

  predicate SameLocks(g: State, g': State) {
    g'.tripLocks == g.tripLocks && g'.keyLocks == g.keyLocks
  }

  // Each statement comes as a pair: what it does to the state, and that it is a step.

  lemma DbErrorEffect(g: State, id: CallId, cmd: Command, pc: CallPc)
    requires At(g, id, cmd, pc) && (pc == Reading || pc == Writing || pc == Inserting)
    ensures var g' := Goto(g, id, Aborting(QueryError(cmd, pc)));
      Privately(g, id, g') && Aborts(g, id, g', QueryError(cmd, pc))
  {
  }

  lemma MadeDbError(g: State, id: CallId, cmd: Command, pc: CallPc) returns (g': State, run: seq<Action>)
    requires At(g, id, cmd, pc) && (pc == Reading || pc == Writing || pc == Inserting)
    ensures Worked(g, id, run, g') && Aborts(g, id, g', QueryError(cmd, pc))
  {
    g', run := Goto(g, id, Aborting(QueryError(cmd, pc))), [CallStep(id, DbError)];
    MadeOne(g, id, DbError);
    DbErrorEffect(g, id, cmd, pc);
  }

  lemma MissingEffect(g: State, id: CallId, cmd: Command)
    requires AtRead(g, id, cmd) && cmd.Key() !in g.trips
    ensures Privately(g, id, DoRead(g, id)) && Aborts(g, id, DoRead(g, id), VerdictError(cmd, NotFound))
  {
  }

  lemma MadeMissing(g: State, id: CallId, cmd: Command) returns (g': State, run: seq<Action>)
    requires AtRead(g, id, cmd) && cmd.Key() !in g.trips
    ensures Worked(g, id, run, g') && Aborts(g, id, g', VerdictError(cmd, NotFound))
  {
    g', run := DoRead(g, id), [CallStep(id, Read)];
    MadeOne(g, id, Read);
    MissingEffect(g, id, cmd);
  }

  lemma ReadEffect(g: State, id: CallId, cmd: Command)
    requires AtRead(g, id, cmd) && cmd.Key() in g.trips
    ensures var g' := DoRead(g, id);
      && Privately(g, id, g') && AtVerify(g', id, cmd, g.trips[cmd.Key()])
      && g'.tripLocks == g.tripLocks[cmd.Key() := id] && g'.keyLocks == g.keyLocks
  {
    ReleasedInsert(g.tripLocks, cmd.Key(), id);
  }

  lemma MadeRead(g: State, id: CallId, cmd: Command) returns (g': State, run: seq<Action>)
    requires AtRead(g, id, cmd) && cmd.Key() in g.trips
    ensures Worked(g, id, run, g') && AtVerify(g', id, cmd, g.trips[cmd.Key()])
    ensures g'.tripLocks == g.tripLocks[cmd.Key() := id] && g'.keyLocks == g.keyLocks
  {
    g', run := DoRead(g, id), [CallStep(id, Read)];
    MadeOne(g, id, Read);
    ReadEffect(g, id, cmd);
  }

  lemma RefuseEffect(g: State, id: CallId, cmd: Command, trip: Trip)
    requires AtVerify(g, id, cmd, trip) && Verify(cmd, trip) != Success
    ensures Privately(g, id, DoVerify(g, id)) && Aborts(g, id, DoVerify(g, id), VerdictError(cmd, Verify(cmd, trip)))
  {
  }

  lemma MadeRefuse(g: State, id: CallId, cmd: Command, trip: Trip) returns (g': State, run: seq<Action>)
    requires AtVerify(g, id, cmd, trip) && Verify(cmd, trip) != Success
    ensures Worked(g, id, run, g') && Aborts(g, id, g', VerdictError(cmd, Verify(cmd, trip)))
  {
    g', run := DoVerify(g, id), [CallStep(id, VerifyRow)];
    MadeOne(g, id, VerifyRow);
    RefuseEffect(g, id, cmd, trip);
  }

  lemma VerifyEffect(g: State, id: CallId, cmd: Command, trip: Trip)
    requires AtVerify(g, id, cmd, trip) && Verify(cmd, trip) == Success
    ensures var g' := DoVerify(g, id);
      Privately(g, id, g') && SameLocks(g, g') && AtUpdate(g', id, cmd, trip.(status := Target(cmd)))
  {
  }

  lemma MadeVerify(g: State, id: CallId, cmd: Command, trip: Trip) returns (g': State, run: seq<Action>)
    requires AtVerify(g, id, cmd, trip) && Verify(cmd, trip) == Success
    ensures Worked(g, id, run, g') && SameLocks(g, g') && AtUpdate(g', id, cmd, trip.(status := Target(cmd)))
  {
    g', run := DoVerify(g, id), [CallStep(id, VerifyRow)];
    MadeOne(g, id, VerifyRow);
    VerifyEffect(g, id, cmd, trip);
  }

  /** The call after its UPDATE. */
  predicate AfterUpdate(g: State, id: CallId, cmd: Command, trip: Trip, g': State)
    requires cmd.Key() in g.trips && id in g.calls
  {
    && At(g', id, cmd, if cmd.Publish? then Inserting else Committing)
    && var c, current := g'.calls[id], g.trips[cmd.Key()];
       && c.tripWrite == Some(UpdatedTrip(current, trip, g.calls[id].now))
       && c.historyWrite == UpdateHistory(current, trip, g.calls[id].now) && c.eventWrite == None
  }

  lemma UpdateEffect(g: State, id: CallId, cmd: Command, trip: Trip)
    requires AtUpdate(g, id, cmd, trip) && cmd.Key() in g.trips
    ensures var g' := DoUpdate(g, id);
      Privately(g, id, g') && SameLocks(g, g') && AfterUpdate(g, id, cmd, trip, g')
  {
  }

  lemma MadeUpdate(g: State, id: CallId, cmd: Command, trip: Trip) returns (g': State, run: seq<Action>)
    requires AtUpdate(g, id, cmd, trip) && cmd.Key() in g.trips
    ensures Worked(g, id, run, g') && SameLocks(g, g') && AfterUpdate(g, id, cmd, trip, g')
  {
    g', run := DoUpdate(g, id), [CallStep(id, Write)];
    MadeOne(g, id, Write);
    UpdateEffect(g, id, cmd, trip);
  }

  /** The event insert finds its key free: by `Theorems.InsertNeverConflicts` it always does. */
  predicate AtInsertEvent(g: State, id: CallId, cmd: Command, trip: Trip) {
    && At(g, id, cmd, Inserting) && cmd.Publish? && g.calls[id].tripWrite == Some(trip)
    && g.calls[id].eventWrite == None
    && PublishedEventId(trip.id) !in g.outbox && PublishedEventId(trip.id) !in g.keyLocks
  }

  predicate AfterInsertEvent(g: State, id: CallId, cmd: Command, trip: Trip, g': State)
    requires cmd.Publish? && id in g.calls
  {
    && id in g'.calls
    && g'.calls[id] == g.calls[id].(pc := Committing, eventWrite := Some(NewRow(NewHead(cmd, trip, g.calls[id].now))))
    && g'.tripLocks == g.tripLocks && g'.keyLocks == g.keyLocks[PublishedEventId(trip.id) := id]
  }

  lemma InsertEventEffect(g: State, id: CallId, cmd: Command, trip: Trip)
    requires AtInsertEvent(g, id, cmd, trip)
    ensures Privately(g, id, DoInsertEvent(g, id)) && AfterInsertEvent(g, id, cmd, trip, DoInsertEvent(g, id))
  {
    ReleasedInsert(g.keyLocks, PublishedEventId(trip.id), id);
  }

  lemma MadeInsertEvent(g: State, id: CallId, cmd: Command, trip: Trip) returns (g': State, run: seq<Action>)
    requires AtInsertEvent(g, id, cmd, trip)
    ensures Worked(g, id, run, g') && AfterInsertEvent(g, id, cmd, trip, g')
  {
    g', run := DoInsertEvent(g, id), [CallStep(id, Insert)];
    MadeOne(g, id, Insert);
    InsertEventEffect(g, id, cmd, trip);
  }

  /** The call is about to insert a trip under its new id, for which it need not wait. */
  predicate AtInsertTrip(g: State, id: CallId, cmd: Command) {
    At(g, id, cmd, Writing) && cmd.Create? && C.NoWrites(g.calls[id])
      && (cmd.Key() !in g.trips ==> cmd.Key() !in g.tripLocks)
  }

  lemma ConflictEffect(g: State, id: CallId, cmd: Command)
    requires AtInsertTrip(g, id, cmd) && (cmd.Key() in g.trips || cmd.seats > MAX_INT4)
    ensures Privately(g, id, DoInsertTrip(g, id)) && Aborts(g, id, DoInsertTrip(g, id), QueryError(cmd, Writing))
  {
  }

  lemma MadeConflict(g: State, id: CallId, cmd: Command) returns (g': State, run: seq<Action>)
    requires AtInsertTrip(g, id, cmd) && (cmd.Key() in g.trips || cmd.seats > MAX_INT4)
    ensures Worked(g, id, run, g') && Aborts(g, id, g', QueryError(cmd, Writing))
  {
    g', run := DoInsertTrip(g, id), [CallStep(id, Write)];
    MadeOne(g, id, Write);
    ConflictEffect(g, id, cmd);
  }

  predicate AfterInsertTrip(g: State, id: CallId, cmd: Command, g': State)
    requires cmd.Create? && id in g.calls
  {
    && id in g'.calls
    && g'.calls[id] == g.calls[id].(pc := Inserting, tripWrite := Some(CreatedTrip(cmd, g.calls[id].now)))
    && g'.tripLocks == g.tripLocks[cmd.Key() := id] && g'.keyLocks == g.keyLocks
  }

  lemma InsertTripEffect(g: State, id: CallId, cmd: Command)
    requires AtInsertTrip(g, id, cmd) && cmd.Key() !in g.trips && cmd.seats <= MAX_INT4
    ensures Privately(g, id, DoInsertTrip(g, id)) && AfterInsertTrip(g, id, cmd, DoInsertTrip(g, id))
  {
    ReleasedInsert(g.tripLocks, cmd.Key(), id);
  }

  lemma MadeInsertTrip(g: State, id: CallId, cmd: Command) returns (g': State, run: seq<Action>)
    requires AtInsertTrip(g, id, cmd) && cmd.Key() !in g.trips && cmd.seats <= MAX_INT4
    ensures Worked(g, id, run, g') && AfterInsertTrip(g, id, cmd, g')
  {
    g', run := DoInsertTrip(g, id), [CallStep(id, Write)];
    MadeOne(g, id, Write);
    InsertTripEffect(g, id, cmd);
  }

  predicate AfterInsertHistory(g: State, id: CallId, g': State)
    requires id in g.calls
  {
    && id in g'.calls && SameLocks(g, g')
    && g'.calls[id] ==
       g.calls[id].(pc := Committing, historyWrite := [HistoryRow(g.calls[id].cmd.Key(), None, Draft, g.calls[id].now)])
  }

  lemma InsertHistoryEffect(g: State, id: CallId, cmd: Command)
    requires At(g, id, cmd, Inserting) && cmd.Create? && g.calls[id].tripWrite.Some?
    requires g.calls[id].tripWrite.value.status == Draft
    ensures Privately(g, id, DoInsertHistory(g, id)) && AfterInsertHistory(g, id, DoInsertHistory(g, id))
  {
  }

  lemma MadeInsertHistory(g: State, id: CallId, cmd: Command) returns (g': State, run: seq<Action>)
    requires At(g, id, cmd, Inserting) && cmd.Create? && g.calls[id].tripWrite.Some?
    requires g.calls[id].tripWrite.value.status == Draft
    ensures Worked(g, id, run, g') && AfterInsertHistory(g, id, g')
  {
    g', run := DoInsertHistory(g, id), [CallStep(id, Insert)];
    MadeOne(g, id, Insert);
    InsertHistoryEffect(g, id, cmd);
  }

  // ----- before and after the transaction -----

  /**
   * Call `id` has come this far since `g` without touching what
   * others see, and holds no lock that it did not take itself.
   */
  ghost predicate Ready(g: State, id: CallId, cmd: Command, g': State) {
    && id in g'.calls && g'.calls[id].cmd == cmd && View(g') == View(g) && Publishers(g') == Publishers(g)
    && g'.trips == g.trips
    && Released(g'.tripLocks, id) == g.tripLocks && Released(g'.keyLocks, id) == g.keyLocks
  }

  lemma ReadyOn(g: State, id: CallId, cmd: Command, g': State, run: seq<Action>, g'': State)
    requires Ready(g, id, cmd, g') && Worked(g', id, run, g'')
    ensures Ready(g, id, cmd, g'') && g''.calls[id].now == g'.calls[id].now
  {
    C.SameView(g', g'');
  }

  lemma HoldsNothing(g: State, id: CallId)
    requires C.CommandInv(g) && id !in g.calls
    ensures Released(g.tripLocks, id) == g.tripLocks && Released(g.keyLocks, id) == g.keyLocks
  {
  }

  /** A new call, before and after its check, and with its transaction begun. */
  ghost function Invoked(g: State, id: CallId, cmd: Command): State {
    SetCall(g, id, Call(cmd, Checking, 0, None, None, [], None))
  }

  ghost function LetInState(g: State, id: CallId, cmd: Command): State {
    SetCall(g, id, Call(cmd, Beginning, 0, None, None, [], None))
  }

  ghost function BegunState(g: State, id: CallId, cmd: Command, now: Time): State {
    SetCall(g, id, Call(cmd, if cmd.Create? then Writing else Reading, now, None, None, [], None))
  }

  /** The call has been let in, or has been turned away. */
  ghost predicate Admitted(g: State, id: CallId, cmd: Command, g': State, err: Option<Error>) {
    && Ready(g, id, cmd, g') && SameLocks(g, g')
    && match err
       case None => g' == LetInState(g, id, cmd)
       case Some(e) => g'.calls[id].pc == Finished(Rejected(e), false)
  }

  function CheckFailure(outcome: CheckOutcome): Option<Error> {
    if outcome == Allowed then None else Some(CheckError(outcome))
  }

  lemma CheckEffect(g: State, id: CallId, cmd: Command, outcome: CheckOutcome)
    requires C.CommandInv(g) && id !in g.calls && !cmd.Create?
    ensures Admitted(g, id, cmd, DoCheck(Invoked(g, id, cmd), id, outcome), CheckFailure(outcome))
  {
    HoldsNothing(g, id);
    C.SameView(g, DoCheck(Invoked(g, id, cmd), id, outcome));
  }

  lemma MadeCheck(g: State, id: CallId, cmd: Command, outcome: CheckOutcome) returns (g': State, run: seq<Action>)
    requires C.CommandInv(g) && id !in g.calls && !cmd.Create?
    ensures Made(g, id, run, g') && Admitted(g, id, cmd, g', CheckFailure(outcome))
  {
    var invoked := Invoked(g, id, cmd);
    g', run := DoCheck(invoked, id, outcome), [CallStep(id, Invoke(cmd))] + [CallStep(id, Check(outcome))];
    MadeOne(g, id, Invoke(cmd));
    MadeOne(invoked, id, Check(outcome));
    MadeOn(g, id, [CallStep(id, Invoke(cmd))], invoked, [CallStep(id, Check(outcome))], g');
    CheckEffect(g, id, cmd, outcome);
  }

  function ValidationFailure(cmd: Command, clock: Time): Option<Error>
    requires cmd.Create?
  {
    if ValidCreate(cmd, clock) then None else Some(InvalidCommand())
  }

  lemma ValidateEffect(g: State, id: CallId, cmd: Command, clock: Time)
    requires C.CommandInv(g) && id !in g.calls && cmd.Create?
    ensures Admitted(g, id, cmd, DoValidate(Invoked(g, id, cmd), id, clock), ValidationFailure(cmd, clock))
  {
    HoldsNothing(g, id);
    C.SameView(g, DoValidate(Invoked(g, id, cmd), id, clock));
  }

  lemma MadeValidate(g: State, id: CallId, cmd: Command, clock: Time) returns (g': State, run: seq<Action>)
    requires C.CommandInv(g) && id !in g.calls && cmd.Create?
    ensures Made(g, id, run, g') && Admitted(g, id, cmd, g', ValidationFailure(cmd, clock))
  {
    var invoked := Invoked(g, id, cmd);
    g', run := DoValidate(invoked, id, clock), [CallStep(id, Invoke(cmd))] + [CallStep(id, Validate(clock))];
    MadeOne(g, id, Invoke(cmd));
    MadeOne(invoked, id, Validate(clock));
    MadeOn(g, id, [CallStep(id, Invoke(cmd))], invoked, [CallStep(id, Validate(clock))], g');
    ValidateEffect(g, id, cmd, clock);
  }

  lemma MadeBegin(g: State, id: CallId, cmd: Command, now: Time)
    ensures Made(LetInState(g, id, cmd), id, [CallStep(id, Begin(now))], BegunState(g, id, cmd, now))
  {
    MadeOne(LetInState(g, id, cmd), id, Begin(now));
    assert DoBegin(LetInState(g, id, cmd), id, now) == BegunState(g, id, cmd, now);
  }

  // ----- how the call ends -----

  function ReplyTo(err: Option<Error>): Reply {
    match err case None => Accepted case Some(e) => Rejected(e)
  }

  /**
   * The call is over, has answered `err`, and holds no lock.  If it took effect, the tables are those that the
   * serial machine makes of them; if not, nothing has changed.
   */
  ghost predicate Answered(g: State, id: CallId, cmd: Command, now: Time, g': State, err: Option<Error>,
                           applied: bool)
  {
    && id in g'.calls && g'.calls[id].cmd == cmd && g'.calls[id].pc == Finished(ReplyTo(err), applied)
    && SameLocks(g, g') && g'.eventLocks == g.eventLocks && g'.log == g.log
    && if applied then Exec(View(g), cmd, now) == Execution(View(g'), Success)
       else View(g') == View(g) && g'.outbox == g.outbox
  }

  lemma TurnedAway(g: State, id: CallId, cmd: Command, now: Time, g': State, err: Error)
    requires Admitted(g, id, cmd, g', Some(err))
    ensures Answered(g, id, cmd, now, g', Some(err), false)
  {
  }

  lemma FinishEffect(g: State, id: CallId, cmd: Command, now: Time, ready: State, err: Option<Error>, applied: bool)
    requires Ready(g, id, cmd, ready) && ready.calls[id].now == now
    requires applied ==> C.CommandInv(ready) && ready.calls[id].pc == Committing && ready.calls[id].tripWrite.Some?
    ensures Answered(g, id, cmd, now, Finish(ready, id, ReplyTo(err), applied), err, applied)
  {
    var g' := Finish(ready, id, ReplyTo(err), applied);
    assert g'.tripLocks == Released(ready.tripLocks, id) && g'.keyLocks == Released(ready.keyLocks, id);
    if applied { C.CommitIsSerial(ready, id, ReplyTo(err)); } else { C.SameView(ready, g'); }
  }
}
