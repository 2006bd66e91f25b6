/**
 * A command call as a whole: what its transaction block comes
 * to, what others may do while it waits, and what it answers.
 */
module CallRuns {
  import opened Domain
  import opened Errors
  import opened Serial
  import opened Protocol
  import opened Database
  import opened CallSteps
  import opened Statuses
  import C = CommandProof
  import M = Permissions
  import S = System
  import T = Theorems

  /** Which statements of a call fail. */
  datatype CallFaults = CallFaults(begin: bool, read: bool, write: bool, insert: bool, commit: CommitOutcome)

  const NO_FAULTS := CallFaults(false, false, false, false, CommitOk)

  /** What becomes of a publish or start call that has its row. */
  function RowResult(cmd: Command, trip: Trip, faults: CallFaults): Option<Error>
    requires !cmd.Create?
  {
    if Verify(cmd, trip) != Success then Some(VerdictError(cmd, Verify(cmd, trip)))
    else if faults.write then Some(QueryError(cmd, Writing))
    else if cmd.Publish? && faults.insert then Some(QueryError(cmd, Inserting))
    else None
  }

  /** The outcome of the transaction block of a publish or start call: the first thing that goes wrong, if any. */
  function BlockResult(cmd: Command, trips: map<Uuid, Trip>, faults: CallFaults): Option<Error>
    requires !cmd.Create?
  {
    if faults.read then Some(QueryError(cmd, Reading))
    else if cmd.tripId !in trips then Some(VerdictError(cmd, NotFound))
    else RowResult(cmd, trips[cmd.tripId], faults)
  }

  /** The outcome of the transaction block of a create call. */
  function CreateResult(cmd: Command, trips: map<Uuid, Trip>, faults: CallFaults): Option<Error>
    requires cmd.Create?
  {
    if faults.write || cmd.newId in trips || cmd.seats > MAX_INT4 then Some(QueryError(cmd, Writing))
    else if faults.insert then Some(QueryError(cmd, Inserting))
    else None
  }

  function BlockFailure(cmd: Command, trips: map<Uuid, Trip>, faults: CallFaults): Option<Error> {
    if cmd.Create? then CreateResult(cmd, trips, faults) else BlockResult(cmd, trips, faults)
  }

  /** The call takes effect. */
  function Applies(cmd: Command, trips: map<Uuid, Trip>, faults: CallFaults): bool {
    BlockFailure(cmd, trips, faults).None? && faults.commit != CommitErrorLost
  }

  /** The block of call `id` has run: its private writes are ready, or it has failed. */
  ghost predicate BlockDone(g: State, id: CallId, err: Option<Error>) {
    && id in g.calls
    && match err
       case None => g.calls[id].pc == Committing && g.calls[id].tripWrite.Some?
       case Some(e) => g.calls[id].pc == Aborting(e)
  }

  // ----- states that arise -----

  /** Some run leads here. */
  ghost predicate Arises(g: State) {
    exists s0, past :: Init(s0) && Leads(s0, past, g)
  }

  lemma ArisesOn(g: State, run: seq<Action>, g': State)
    requires Arises(g) && Leads(g, run, g')
    ensures Arises(g')
  {
    var s0, past :| Init(s0) && Leads(s0, past, g);
    LeadsOn(s0, past, g, run, g');
  }

  lemma ArisesInOrder(g: State)
    requires Arises(g)
    ensures C.CommandInv(g)
  {
    var s0, past :| Init(s0) && Leads(s0, past, g);
    T.ReachableCommands(s0, past, g);
  }

  /** No other transaction has, or is about to have, an event of the trip that is being published. */
  lemma KeyIsFree(g: State, id: CallId, cmd: Command, trip: Trip)
    requires Arises(g) && At(g, id, cmd, Inserting) && cmd.Publish? && g.calls[id].tripWrite == Some(trip)
    requires trip.id == cmd.Key()
    ensures AtInsertEvent(g, id, cmd, trip)
  {
    var s0, past :| Init(s0) && Leads(s0, past, g);
    T.InsertNeverConflicts(s0, past, g, id);
    ArisesInOrder(g);
    assert C.CallOk(g.calls[id], id, g.trips, g.tripLocks, g.keyLocks, g.outbox.Keys);
  }

  // ----- waiting for the first statement -----

  /** The first statement of the call's block has to wait. */
  predicate Blocked(w: World, id: CallId, cmd: Command) {
    if cmd.Create? then TripKeyBlocked(w, cmd.Key(), id) else TripBlocked(w, cmd.Key(), id)
  }

  function FirstFails(cmd: Command, faults: CallFaults): bool {
    if cmd.Create? then faults.write else faults.read
  }

  /** The transaction of the call has begun, and nothing else yet. */
  ghost predicate JustBegun(g: State, id: CallId, cmd: Command) {
    At(g, id, cmd, if cmd.Create? then Writing else Reading) && C.NoWrites(g.calls[id])
  }

  /** The first statement of the call's block ends its wait, if it had to wait, in success or in failure. */
  ghost predicate AtBlock(g: State, id: CallId, cmd: Command, fails: bool) {
    JustBegun(g, id, cmd) && (fails || if cmd.Create? then AtInsertTrip(g, id, cmd) else AtRead(g, id, cmd))
  }

  /** What others do while the call waits, and the state in which its wait ends. */
  datatype Pause = Pause(others: seq<Action>, end: State)

  ghost predicate OthersOnly(id: CallId, run: seq<Action>) {
    forall a :: a in run ==> !(a.CallStep? && a.call == id)
  }

  /**
   * From `g`, where the first statement of the call's block is issued: if it has to wait, the others do as they like
   * until it has not, or until it fails.  If it need not wait, nothing happens in between.
   */
  ghost predicate Meanwhile(g: State, id: CallId, cmd: Command, fails: bool, pause: Pause) {
    if Blocked(WorldOf(g), id, cmd) then
      && Leads(g, pause.others, pause.end) && OthersOnly(id, pause.others)
      && (fails || !Blocked(WorldOf(pause.end), id, cmd))
    else pause == Pause([], g)
  }

  lemma OtherStep(s: State, a: Action, id: CallId)
    requires Enabled(s, a) && !(a.CallStep? && a.call == id) && id in s.calls
    ensures id in Next(s, a).calls && Next(s, a).calls[id] == s.calls[id]
  {
    if a.CallStep? { M.CallMovesAlone(s, a.call, a.call_action); }
  }

  /** What others do leaves the call as it is. */
  lemma {:induction false} OthersLeave(s: State, run: seq<Action>, id: CallId)
    requires ValidRun(s, run) && OthersOnly(id, run) && id in s.calls
    ensures id in Final(s, run).calls && Final(s, run).calls[id] == s.calls[id]
    decreases |run|
  {
    if run != [] {
      var shorter, last := run[..|run| - 1], run[|run| - 1];
      assert last in run;
      OthersLeave(s, shorter, id);
      OtherStep(Final(s, shorter), last, id);
    }
  }

  /** A call whose transaction has just begun holds no lock. */
  lemma JustBegunHoldsNothing(g: State, id: CallId, cmd: Command)
    requires C.CommandInv(g) && JustBegun(g, id, cmd)
    ensures Released(g.tripLocks, id) == g.tripLocks && Released(g.keyLocks, id) == g.keyLocks
  {
  }

  /** When the wait is over, the call still is where it was, and its statement has the row. */
  lemma Awoken(g: State, id: CallId, cmd: Command, fails: bool, pause: Pause)
    requires Arises(g) && JustBegun(g, id, cmd) && Meanwhile(g, id, cmd, fails, pause)
    ensures Leads(g, pause.others, pause.end) && Arises(pause.end)
    ensures AtBlock(pause.end, id, cmd, fails) && Ready(pause.end, id, cmd, pause.end)
    ensures pause.end.calls[id] == g.calls[id]
  {
    if Blocked(WorldOf(g), id, cmd) {
      LeadsIsFinal(g, pause.others, pause.end);
      OthersLeave(g, pause.others, id);
    } else {
      LeadsNowhere(g);
    }
    ArisesOn(g, pause.others, pause.end);
    ArisesInOrder(pause.end);
    JustBegunHoldsNothing(pause.end, id, cmd);
  }

  // ----- statements that may fail -----

  /** What the locking read finds. */
  function LoadError(cmd: Command, trips: map<Uuid, Trip>, fails: bool): Option<Error> {
    if fails then Some(QueryError(cmd, Reading)) else if cmd.Key() !in trips then Some(VerdictError(cmd, NotFound))
      else None
  }

  /** The locking read has succeeded and taken the row lock, or the call has failed. */
  ghost predicate AfterLoad(g: State, id: CallId, cmd: Command, g': State, err: Option<Error>) {
    match err
    case Some(e) => Aborts(g, id, g', e)
    case None =>
      && cmd.Key() in g.trips && AtVerify(g', id, cmd, g.trips[cmd.Key()])
      && id in g.calls && g'.calls[id].now == g.calls[id].now
      && g'.tripLocks == g.tripLocks[cmd.Key() := id] && g'.keyLocks == g.keyLocks
  }

  lemma LoadStep(g: State, id: CallId, cmd: Command, fails: bool) returns (g': State, run: seq<Action>)
    requires AtBlock(g, id, cmd, fails) && !cmd.Create?
    ensures Worked(g, id, run, g') && AfterLoad(g, id, cmd, g', LoadError(cmd, g.trips, fails))
  {
    if fails {
      g', run := MadeDbError(g, id, cmd, Reading);
    } else if cmd.Key() !in g.trips {
      g', run := MadeMissing(g, id, cmd);
    } else {
      g', run := MadeRead(g, id, cmd);
    }
  }

  lemma JudgeStep(g: State, id: CallId, cmd: Command, trip: Trip) returns (g': State, run: seq<Action>)
    requires AtVerify(g, id, cmd, trip)
    ensures Worked(g, id, run, g')
    ensures if Verify(cmd, trip) != Success then Aborts(g, id, g', VerdictError(cmd, Verify(cmd, trip)))
            else SameLocks(g, g') && AtUpdate(g', id, cmd, trip.(status := Target(cmd)))
  {
    if Verify(cmd, trip) != Success {
      g', run := MadeRefuse(g, id, cmd, trip);
    } else {
      g', run := MadeVerify(g, id, cmd, trip);
    }
  }

  /** The judgement, after the steps so far. */
  lemma JudgeOn(g: State, id: CallId, run: seq<Action>, before: State, cmd: Command, trip: Trip)
    returns (after: State, longer: seq<Action>)
    requires Worked(g, id, run, before) && AtVerify(before, id, cmd, trip)
    ensures Worked(g, id, longer, after)
    ensures if Verify(cmd, trip) != Success then Aborts(before, id, after, VerdictError(cmd, Verify(cmd, trip)))
            else SameLocks(before, after) && AtUpdate(after, id, cmd, trip.(status := Target(cmd)))
  {
    var step;
    after, step := JudgeStep(before, id, cmd, trip);
    longer := run + step;
    WorkedOn(g, id, run, before, step, after);
  }

  lemma SaveStep(g: State, id: CallId, cmd: Command, trip: Trip, fails: bool) returns (g': State, run: seq<Action>)
    requires AtUpdate(g, id, cmd, trip) && cmd.Key() in g.trips
    ensures Worked(g, id, run, g')
    ensures if fails then Aborts(g, id, g', QueryError(cmd, Writing))
      else SameLocks(g, g') && AfterUpdate(g, id, cmd, trip, g')
  {
    if fails {
      g', run := MadeDbError(g, id, cmd, Writing);
    } else {
      g', run := MadeUpdate(g, id, cmd, trip);
    }
  }

  lemma InsertStep(g: State, id: CallId, cmd: Command, trip: Trip, fails: bool) returns (g': State, run: seq<Action>)
    requires AtInsertEvent(g, id, cmd, trip)
    ensures Worked(g, id, run, g')
    ensures if fails then Aborts(g, id, g', QueryError(cmd, Inserting)) else AfterInsertEvent(g, id, cmd, trip, g')
  {
    if fails {
      g', run := MadeDbError(g, id, cmd, Inserting);
    } else {
      g', run := MadeInsertEvent(g, id, cmd, trip);
    }
  }

  /** What the two inserts leave of the call. */
  ghost predicate AfterCreate(g: State, id: CallId, cmd: Command, faults: CallFaults, g': State)
    requires cmd.Create? && id in g.calls
  {
    var inserted := !faults.write && cmd.newId !in g.trips && cmd.seats <= MAX_INT4;
    && id in g'.calls && g'.keyLocks == g.keyLocks
    && g'.tripLocks == (if inserted then g.tripLocks[cmd.newId := id] else g.tripLocks)
    && var c, c' := g.calls[id], g'.calls[id];
       && c'.cmd == c.cmd && c'.now == c.now && c'.eventWrite == c.eventWrite
       && c'.tripWrite == (if inserted then Some(CreatedTrip(cmd, c.now)) else c.tripWrite)
       && c'.historyWrite ==
          (if inserted && !faults.insert then [HistoryRow(cmd.newId, None, Draft, c.now)] else c.historyWrite)
  }

  lemma CreateStep(g: State, id: CallId, cmd: Command, faults: CallFaults) returns (g': State, run: seq<Action>)
    requires cmd.Create? && AtBlock(g, id, cmd, faults.write)
    ensures Worked(g, id, run, g') && AfterCreate(g, id, cmd, faults, g')
    ensures BlockDone(g', id, CreateResult(cmd, g.trips, faults))
  {
    if faults.write {
      g', run := MadeDbError(g, id, cmd, Writing);
    } else if cmd.newId in g.trips || cmd.seats > MAX_INT4 {
      g', run := MadeConflict(g, id, cmd);
    } else {
      var mid, first := MadeInsertTrip(g, id, cmd);
      var second;
      if faults.insert {
        g', second := MadeDbError(mid, id, cmd, Inserting);
      } else {
        g', second := MadeInsertHistory(mid, id, cmd);
      }
      run := first + second;
      WorkedOn(g, id, first, mid, second, g');
    }
  }

  /** The block of a publish or start call, statement by statement. */
  lemma BlockStep(g: State, id: CallId, cmd: Command, faults: CallFaults) returns (g': State, run: seq<Action>)
    requires Arises(g) && AtBlock(g, id, cmd, FirstFails(cmd, faults)) && !cmd.Create?
    ensures Worked(g, id, run, g') && BlockDone(g', id, BlockResult(cmd, g.trips, faults))
  {
    ArisesInOrder(g);
    g', run := LoadStep(g, id, cmd, faults.read);
    if faults.read || cmd.Key() !in g.trips { return; }
    var trip, before, step := g.trips[cmd.Key()], g', [];
    g', run := JudgeOn(g, id, run, g', cmd, trip);
    if Verify(cmd, trip) != Success { return; }
    before := g';
    g', step := SaveStep(before, id, cmd, trip.(status := Target(cmd)), faults.write);
    WorkedOn(g, id, run, before, step, g');
    run := run + step;
    if faults.write || cmd.Start? { return; }
    before := g';
    ArisesOn(g, run, before);
    var updated := before.calls[id].tripWrite.value;
    KeyIsFree(before, id, cmd, updated);
    g', step := InsertStep(before, id, cmd, updated, faults.insert);
    WorkedOn(g, id, run, before, step, g');
    run := run + step;
  }

  // ----- how the transaction ends -----

  lemma BeginFails(g: State, id: CallId, cmd: Command, now: Time) returns (g': State, run: seq<Action>)
    requires Arises(g) && id !in g.calls
    ensures var admitted := LetInState(g, id, cmd);
      && Made(admitted, id, run, g') && Answered(g, id, cmd, now, g', Some(BeginErr(cmd)), false)
      && WorldOf(g') == WorldOf(g)
  {
    var admitted := LetInState(g, id, cmd);
    g', run := Finish(admitted, id, Rejected(BeginErr(cmd)), false), [CallStep(id, BeginError)];
    MadeOne(admitted, id, BeginError);
    ArisesInOrder(g);
    HoldsNothing(g, id);
    C.SameView(g, g');
  }

  /** The reply of a call whose block has ended in `blockErr`. */
  function FinalError(cmd: Command, blockErr: Option<Error>, commit: CommitOutcome): Option<Error> {
    match blockErr
    case Some(e) => Some(BlockError(cmd, e))
    case None => if commit == CommitOk then None else Some(CommitError(cmd))
  }

  lemma EndStep(g: State, id: CallId, cmd: Command, blockErr: Option<Error>, commit: CommitOutcome, ready: State)
    returns (g': State, run: seq<Action>)
    requires Ready(g, id, cmd, ready) && BlockDone(ready, id, blockErr) && Arises(ready)
    ensures Made(ready, id, run, g')
    ensures var err, applied := FinalError(cmd, blockErr, commit), blockErr.None? && commit != CommitErrorLost;
      && Answered(g, id, cmd, ready.calls[id].now, g', err, applied)
      && g' == Finish(ready, id, ReplyTo(err), applied)
  {
    ArisesInOrder(ready);
    var err := FinalError(cmd, blockErr, commit);
    var applied := blockErr.None? && commit != CommitErrorLost;
    g' := Finish(ready, id, ReplyTo(err), applied);
    var a := if blockErr.Some? then Rollback else Commit(commit);
    run := [CallStep(id, a)];
    MadeOne(ready, id, a);
    FinishEffect(g, id, cmd, ready.calls[id].now, ready, err, applied);
  }

  /** What `tx` returns. */
  function TxFailure(cmd: Command, trips: map<Uuid, Trip>, faults: CallFaults): Option<Error> {
    if faults.begin then Some(Wrapped(InBegin, Foreign(FromDatabase)))
    else match BlockFailure(cmd, trips, faults)
      case Some(e) => Some(Wrapped(InBlock, e))
      case None => if faults.commit == CommitOk then None else Some(Wrapped(InCommit, Foreign(FromDatabase)))
  }

  function InService(cmd: Command, err: Option<Error>): Option<Error> {
    match err case None => None case Some(e) => Some(ServiceError(cmd, e))
  }

  /** What a create call answers. */
  function CreateAnswer(cmd: Command, clock: Time, trips: map<Uuid, Trip>, faults: CallFaults): Option<Error>
    requires cmd.Create?
  {
    if !ValidCreate(cmd, clock) then Some(InvalidCommand()) else InService(cmd, TxFailure(cmd, trips, faults))
  }

  /** What a publish or start call answers. */
  function Answer(cmd: Command, check: CheckOutcome, trips: map<Uuid, Trip>, faults: CallFaults): Option<Error> {
    if check != Allowed then Some(CheckError(check)) else InService(cmd, TxFailure(cmd, trips, faults))
  }

  // ----- runs of one call around the doings of others -----

  ghost predicate Around(id: CallId, own: seq<Action>, others: seq<Action>, rest: seq<Action>, run: seq<Action>) {
    run == own + others + rest && OnlyCall(id, own) && OnlyCall(id, rest)
  }

  /** The run is that of call `id`, but for one stretch that belongs to the others. */
  ghost predicate OwnBut(id: CallId, run: seq<Action>, others: seq<Action>) {
    exists own, rest :: Around(id, own, others, rest, run)
  }

  /** The call has gone from `g` to `g'`, and the others have done `others` in between. */
  ghost predicate Attended(g: State, id: CallId, run: seq<Action>, others: seq<Action>, g': State) {
    Leads(g, run, g') && OwnBut(id, run, others)
  }

  lemma AttendedAlone(g: State, id: CallId, run: seq<Action>, g': State)
    requires Made(g, id, run, g')
    ensures Attended(g, id, run, [], g')
  {
    assert Around(id, run, [], [], run);
  }

  lemma AttendedAfter(g: State, id: CallId, first: seq<Action>, mid: State, run: seq<Action>, others: seq<Action>,
                      g': State)
    requires Made(g, id, first, mid) && Attended(mid, id, run, others, g')
    ensures Attended(g, id, first + run, others, g')
  {
    LeadsOn(g, first, mid, run, g');
    var own, rest :| Around(id, own, others, rest, run);
    assert first + (own + others + rest) == (first + own) + others + rest;
    assert Around(id, first + own, others, rest, first + run);
  }

  lemma AttendedAround(g: State, id: CallId, first: seq<Action>, begun: State, others: seq<Action>, end: State,
                       second: seq<Action>, g': State)
    requires Made(g, id, first, begun) && Leads(begun, others, end) && Made(end, id, second, g')
    ensures Attended(g, id, first + (others + second), others, g')
  {
    LeadsOn(begun, others, end, second, g');
    LeadsOn(g, first, begun, others + second, g');
    assert first + (others + second) == first + others + second;
    assert Around(id, first, others, second, first + (others + second));
  }

  function LabelOf(err: Option<Error>): Label {
    match err case None => LabelSuccess case Some(e) => PublishTripResult(e)
  }

  /** The label is taken from the error before the service adds its context; it makes no difference. */
  lemma LabelSurvives(cmd: Command, err: Option<Error>)
    ensures LabelOf(InService(cmd, err)) == LabelOf(err)
  {
    if err.Some? {
      WrappedIs(InPublishTrip, err.value);
      WrappedIs(InCreateTrip, err.value);
    }
  }

  /**
   * If nothing fails, the status line is the serial machine's verdict on the committed data, whatever the layers
   * of context that the error has passed through.
   */
  lemma AnswerIsVerdict(d: Tables, cmd: Command, now: Time)
    requires !cmd.Create?
    ensures var v, reply := Exec(d, cmd, now).verdict, ReplyTo(Answer(cmd, Allowed, d.trips, NO_FAULTS));
      HttpStatus(cmd, reply) == if v == Success then 200 else VerdictStatus(v)
  {
    var v := Exec(d, cmd, now).verdict;
    if v != Success { VerdictShows(cmd, v); }
  }

  /** The same in the columns of the row. */
  lemma AnswerInColumns(trips: map<Uuid, Trip>, cmd: Command)
    requires !cmd.Create?
    ensures HttpStatus(cmd, ReplyTo(Answer(cmd, Allowed, trips, NO_FAULTS))) ==
      if cmd.tripId !in trips then 404
      else if trips[cmd.tripId].driverId != cmd.clientId then 403
      else if trips[cmd.tripId].status == (if cmd.Publish? then Draft else Published) then 200
      else if cmd.Publish? && trips[cmd.tripId].status == Published then 204
      else 409
  {
    var d := Tables(trips, [], map[]);
    VerdictMeans(d, cmd, 0);
    AnswerIsVerdict(d, cmd, 0);
  }

  /** And for a create command, in its fields. */
  lemma CreateAnswerInColumns(trips: map<Uuid, Trip>, cmd: Command, clock: Time)
    requires cmd.Create?
    ensures HttpStatus(cmd, ReplyTo(CreateAnswer(cmd, clock, trips, NO_FAULTS))) ==
      if || cmd.driverId == NilUuid || cmd.departureTime <= clock || cmd.seats <= 0
         || (forall c :: c in cmd.fromPoint ==> IsSpace(c)) || (forall c :: c in cmd.toPoint ==> IsSpace(c)) then 400
      else if cmd.newId in trips || cmd.seats > 2147483647 then 500
      else 201
  {
    assert Blank(cmd.fromPoint) <==> forall c :: c in cmd.fromPoint ==> IsSpace(c);
    assert Blank(cmd.toPoint) <==> forall c :: c in cmd.toPoint ==> IsSpace(c);
    InvalidShows(cmd);
    assert S.IsStatement(Writing);
    FailureShows(cmd, BlockError(cmd, QueryError(cmd, Writing)));
  }

  /**
   * The retry of a publish that has committed changes nothing.  It is answered 204 as long as the trip is published,
   * but 409 once the trip has been started.
   */
  lemma RetriedPublish(s0: State, run: seq<Action>, s: State, i: nat, retry: Command, now: Time)
    requires Init(s0) && Leads(s0, run, s) && retry.Publish? && Publishes(s.trace, i, retry.tripId)
    requires retry.clientId == s.trace[i].cmd.clientId
    ensures retry.tripId in s.trips && Exec(View(s), retry, now).tables == View(s)
    ensures HttpStatus(retry, ReplyTo(Answer(retry, Allowed, s.trips, NO_FAULTS))) ==
            if s.trips[retry.tripId].status == Published then 204 else 409
  {
    T.CommittedDataIsSerial(s0, run, s);
    assert WrittenBy(View(s), s.trace[i], retry.tripId);
    AnswerIsVerdict(View(s), retry, now);
  }

  // ----- whole calls -----

  /** A call may be made at any time under a new id. */
  ghost predicate MayCall(g: State, id: CallId) {
    Arises(g) && id !in g.calls
  }

  /** What may happen while the first statement of a call made in `g` waits; `world` is the database after that. */
  ghost predicate MayPause(g: State, id: CallId, cmd: Command, now: Time, faults: CallFaults, world: World,
                           pause: Pause)
  {
    var begun := BegunState(g, id, cmd, now);
    && Meanwhile(begun, id, cmd, FirstFails(cmd, faults), pause)
    && (Blocked(WorldOf(begun), id, cmd) ==> world == WorldOf(pause.end))
  }

  /** The call gets as far as its transaction block. */
  predicate Opens(check: CheckOutcome, faults: CallFaults) {
    check == Allowed && !faults.begin
  }

  /** The check of a publish or start call is allowed, or the create command is valid. */
  lemma LetsIn(g: State, id: CallId, cmd: Command, clock: Time) returns (run: seq<Action>)
    requires MayCall(g, id) && (cmd.Create? ==> ValidCreate(cmd, clock))
    ensures Made(g, id, run, LetInState(g, id, cmd)) && Arises(LetInState(g, id, cmd))
  {
    ArisesInOrder(g);
    var admitted;
    if cmd.Create? {
      admitted, run := MadeValidate(g, id, cmd, clock);
    } else {
      admitted, run := MadeCheck(g, id, cmd, Allowed);
    }
    ArisesOn(g, run, LetInState(g, id, cmd));
  }

  lemma CallBlock(g: State, id: CallId, cmd: Command, faults: CallFaults) returns (g': State, run: seq<Action>)
    requires Arises(g) && AtBlock(g, id, cmd, FirstFails(cmd, faults))
    ensures Worked(g, id, run, g') && BlockDone(g', id, BlockFailure(cmd, g.trips, faults))
  {
    if cmd.Create? {
      g', run := CreateStep(g, id, cmd, faults);
    } else {
      g', run := BlockStep(g, id, cmd, faults);
    }
  }

  /** From the first statement of the block to the end. */
  lemma BlockEnds(g: State, id: CallId, cmd: Command, faults: CallFaults) returns (g': State, run: seq<Action>)
    requires Arises(g) && AtBlock(g, id, cmd, FirstFails(cmd, faults)) && Ready(g, id, cmd, g) && !faults.begin
    ensures Made(g, id, run, g')
    ensures Answered(g, id, cmd, g.calls[id].now, g',
                     InService(cmd, TxFailure(cmd, g.trips, faults)), Applies(cmd, g.trips, faults))
  {
    var ready, last;
    ready, run := CallBlock(g, id, cmd, faults);
    ArisesOn(g, run, ready);
    ReadyOn(g, id, cmd, g, run, ready);
    g', last := EndStep(g, id, cmd, BlockFailure(cmd, g.trips, faults), faults.commit, ready);
    MadeOn(g, id, run, ready, last, g');
    run := run + last;
  }

  /** The same, from the begin of the transaction on. */
  lemma TxEnds(g: State, id: CallId, cmd: Command, faults: CallFaults, now: Time) returns (g': State, run: seq<Action>)
    requires Arises(LetInState(g, id, cmd)) && !faults.begin && !Blocked(WorldOf(g), id, cmd)
    ensures Made(LetInState(g, id, cmd), id, run, g')
    ensures Answered(g, id, cmd, now, g', InService(cmd, TxFailure(cmd, g.trips, faults)),
                     Applies(cmd, g.trips, faults))
  {
    var begun, begin, rest := BegunState(g, id, cmd, now), [CallStep(id, Begin(now))], [];
    MadeBegin(g, id, cmd, now);
    ArisesOn(LetInState(g, id, cmd), begin, begun);
    Awoken(begun, id, cmd, FirstFails(cmd, faults), Pause([], begun));
    g', rest := BlockEnds(begun, id, cmd, faults);
    MadeOn(LetInState(g, id, cmd), id, begin, begun, rest, g');
    run := begin + rest;
  }

  /**
   * A call that is let in, and need not wait, can be made to its end, whichever statements fail, the begin and the
   * commit among them; and these determine answer and effect.
   */
  lemma CallEnds(g: State, id: CallId, cmd: Command, clock: Time, faults: CallFaults, now: Time)
    returns (g': State, run: seq<Action>)
    requires MayCall(g, id) && (cmd.Create? ==> ValidCreate(cmd, clock)) && !Blocked(WorldOf(g), id, cmd)
    ensures Made(g, id, run, g') && Arises(g')
    ensures Answered(g, id, cmd, now, g', InService(cmd, TxFailure(cmd, g.trips, faults)),
                     !faults.begin && Applies(cmd, g.trips, faults))
  {
    var first := LetsIn(g, id, cmd, clock);
    var rest;
    if faults.begin {
      g', rest := BeginFails(g, id, cmd, now);
    } else {
      g', rest := TxEnds(g, id, cmd, faults, now);
    }
    MadeOn(g, id, first, LetInState(g, id, cmd), rest, g');
    run := first + rest;
    ArisesOn(g, run, g');
  }

  /** The state in which the call does its work, if it gets that far; else the state in which it was made. */
  function WorkState(g: State, begins: bool, pause: Pause): State {
    if begins then pause.end else g
  }
}
