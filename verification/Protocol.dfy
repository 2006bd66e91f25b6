/**
 * The concurrent system as a state machine: any number of command calls and of publisher processes over
 * one PostgreSQL database (READ COMMITTED) and one Kafka topic.  One action is one statement, one network
 * call, one commit or rollback, or one crash; actions of different actors interleave freely.
 */
module Protocol {
  import opened Domain
  import opened Errors
  import opened Serial

  type CallId = nat
  type PubId = nat

  const BATCH_LIMIT := 100
  const MAX_INT4 := 0x7fff_ffff

  // ----- actors -----

  /** Where a command call stands.  From `Reading` to `Aborting` it has an open transaction. */
  datatype CallPc =
    | Checking | Beginning | Reading | Verifying | Writing | Inserting | Committing
    | Aborting(err: Error) | Finished(reply: Reply, applied: bool)

  /** `loaded` is the row in the call's memory; the next three fields are its uncommitted writes. */
  datatype Call = Call(
    cmd: Command, pc: CallPc, now: Time, loaded: Option<Trip>,
    tripWrite: Option<Trip>, historyWrite: seq<HistoryRow>, eventWrite: Option<OutboxRow>)

  datatype PubPc =
    | Resting | Opened | Selecting | Sending | AckReceived | SendFailed(reason: Reason) | Doomed | Counting

  datatype Picked = Picked(id: Uuid, row: OutboxRow)

  /** In-memory counters of one publisher process; no rollback undoes them. */
  datatype Counters = Counters(success: nat, errors: nat, failed: nat, pendingGauge: Option<nat>)

  /** What the process committed or lost so far.  Only the proofs look at it. */
  datatype Tally = Tally(sent: nat, attempts: nat, lostAcks: nat)

  datatype Pub = Pub(
    pc: PubPc, now: Time, queue: seq<Uuid>, batch: seq<Picked>, next: nat,
    writes: Outbox, acked: set<Uuid>, failures: nat, counters: Counters, tally: Tally)

  datatype ServiceCode = TripCreation | TripStart

  datatype Permission = Permission(clientId: Uuid, serviceCode: ServiceCode)

  /**
   * `tripLocks` are the row locks on trips, with the keys of uncommitted inserts; `keyLocks` are the keys of
   * uncommitted outbox inserts; `eventLocks` are the row locks on outbox events.  The last three fields record
   * the past: commands in commit order, acknowledged Kafka calls, and the acknowledgements whose transaction did
   * not commit.
   */
  datatype State = State(
    trips: map<Uuid, Trip>, history: seq<HistoryRow>, outbox: Outbox,
    tripLocks: map<Uuid, CallId>, keyLocks: map<Uuid, CallId>, eventLocks: map<Uuid, PubId>,
    calls: map<CallId, Call>, pubs: map<PubId, Pub>, log: seq<LogEntry>,
    trace: seq<Entry>, acks: multiset<Uuid>, lost: multiset<Uuid>)

  /** The part of the state that only commands write, and the part that only publishers write, with the outbox. */
  datatype CommandSide = CommandSide(
    trips: map<Uuid, Trip>, history: seq<HistoryRow>, tripLocks: map<Uuid, CallId>, keyLocks: map<Uuid, CallId>,
    calls: map<CallId, Call>, trace: seq<Entry>)

  datatype PublisherSide = PublisherSide(
    outbox: Outbox, eventLocks: map<Uuid, PubId>, pubs: map<PubId, Pub>, log: seq<LogEntry>,
    acks: multiset<Uuid>, lost: multiset<Uuid>)

  function Commands(s: State): CommandSide {
    CommandSide(s.trips, s.history, s.tripLocks, s.keyLocks, s.calls, s.trace)
  }

  function Publishers(s: State): PublisherSide {
    PublisherSide(s.outbox, s.eventLocks, s.pubs, s.log, s.acks, s.lost)
  }

  /** The committed data that commands read and write. */
  function View(s: State): Tables {
    Tables(s.trips, s.history, Heads(s.outbox))
  }

  function Released(locks: map<Uuid, nat>, holder: nat): map<Uuid, nat> {
    map k | k in locks && locks[k] != holder :: locks[k]
  }

  /** Somebody else holds the row, so an UPDATE of it has to wait. */
  predicate HeldByOther(locks: map<Uuid, nat>, row: Uuid, holder: nat) {
    row in locks && locks[row] != holder
  }

  // ----- command calls -----

  datatype CheckOutcome = Allowed | Denied | Unavailable(text: string) | InvalidResponse

  /** The three ways a commit can end: acknowledged, or an error after or before it took effect. */
  datatype CommitOutcome = CommitOk | CommitErrorApplied | CommitErrorLost

  datatype CallAction =
    | Invoke(cmd: Command)
    | Check(outcome: CheckOutcome)
    | Validate(clock: Time)
    | Begin(now: Time)
    | BeginError
    | Read
    | VerifyRow
    | Write
    | Insert
    | DbError
    | Commit(result: CommitOutcome)
    | Rollback
    | Crash(applied: bool)

  /** What a publish or start call asks the contract service before anything else. */
  function NeededPermission(cmd: Command): Permission
    requires !cmd.Create?
  {
    Permission(cmd.clientId, if cmd.Publish? then TripCreation else TripStart)
  }

  /** unicode.IsSpace, which strings.TrimSpace goes by */
  predicate IsSpace(c: char) {
    var n := c as int;
    || 9 <= n <= 13 || n == 0x20 || n == 0x85 || n == 0xa0 || n == 0x1680 || 0x2000 <= n <= 0x200a
    || n == 0x2028 || n == 0x2029 || n == 0x202f || n == 0x205f || n == 0x3000
  }

  predicate Blank(text: string) {
    forall i :: 0 <= i < |text| ==> IsSpace(text[i])
  }

  predicate ValidCreate(cmd: Command, clock: Time)
    requires cmd.Create?
  {
    && cmd.driverId != NilUuid && !Blank(cmd.fromPoint) && !Blank(cmd.toPoint)
    && cmd.departureTime > clock && cmd.seats > 0
  }

  function CheckError(outcome: CheckOutcome): Error {
    match outcome
    case Unavailable(text) => Wrap(InContractRequest, [Base(ErrUnavailable), Foreign(FromNetwork(text))])
    case InvalidResponse => Wrapped(InContractResponse, Base(ErrInvalidResponse))
    case _ => Base(ErrForbidden)
  }

  function InvalidCommand(): Error {
    Wrap(InValidation, [Base(ErrValidation), Foreign(FromInput)])
  }

  /** The error of the transaction block when the row check fails. */
  function VerdictError(cmd: Command, verdict: Verdict): Error {
    if cmd.Publish? then
      match verdict
      case NotFound => Wrapped(InGetForUpdateByID, Base(ErrTripNotFound))
      case NotDriver => Wrapped(ClientIsNotDriver, Base(ErrForbidden))
      case AlreadyPublished => Wrapped(OfTrip, Base(ErrTripAlreadyPublished))
      case WrongStatus => Wrapped(InvalidStatus, Base(ErrConflict))
      case _ => Foreign(FromDatabase)
    else
      match verdict
      case NotFound => Base(ErrTripNotFound)
      case NotDriver => Base(ErrForbidden)
      case WrongStatus => Base(ErrConflict)
      case _ => Foreign(FromDatabase)
  }

  /** Context that the service method adds to an error of the transaction wrapper. */
  function ServiceError(cmd: Command, err: Error): Error {
    match cmd
    case Create(_, _, _, _, _, _) => Wrapped(InCreateTrip, err)
    case Publish(_, _, _) => Wrapped(InPublishTrip, err)
    case Start(_, _) => err
  }

  function BlockError(cmd: Command, err: Error): Error {
    ServiceError(cmd, Wrapped(InBlock, err))
  }

  /** The error of the transaction block when the statement at hand fails. */
  function QueryError(cmd: Command, pc: CallPc): Error {
    var layer := match pc case Reading => InGetForUpdateByID case Writing => InUpdate case _ => InCreateOutboxEvent;
    var statement := match pc case Reading => SelectingTrip case Writing => UpdatingTrip case _ => InsertingEvent;
    match cmd
    case Create(_, _, _, _, _, _) =>
      Wrapped(InCreate, Wrapped(if pc == Writing then InsertingTrip else InsertingHistory, Foreign(FromDatabase)))
    case Publish(_, _, _) => Wrapped(layer, Wrapped(statement, Foreign(FromDatabase)))
    case Start(_, _) => Wrapped(statement, Foreign(FromDatabase))
  }

  function BeginErr(cmd: Command): Error {
    ServiceError(cmd, Wrapped(InBegin, Foreign(FromDatabase)))
  }

  function CommitError(cmd: Command): Error {
    ServiceError(cmd, Wrapped(InCommit, Foreign(FromDatabase)))
  }

  function SetCall(s: State, id: CallId, call: Call): (s': State)
    ensures Publishers(s') == Publishers(s)
  {
    s.(calls := s.calls[id := call])
  }

  function Goto(s: State, id: CallId, pc: CallPc): (s': State)
    requires id in s.calls
    ensures Publishers(s') == Publishers(s)
  {
    SetCall(s, id, s.calls[id].(pc := pc))
  }

  /** The transaction ends: its writes become visible or vanish, and all its locks are released. */
  function Finish(s: State, id: CallId, reply: Reply, applied: bool): (s': State)
    requires id in s.calls
    requires applied ==> s.calls[id].tripWrite.Some?
    ensures !applied ==> Publishers(s') == Publishers(s)
  {
    var c := s.calls[id];
    var key := c.cmd.Key();
    s.(
      trips := if applied then s.trips[key := c.tripWrite.value] else s.trips,
      history := if applied then s.history + c.historyWrite else s.history,
      outbox := if applied && c.eventWrite.Some? then s.outbox[PublishedEventId(key) := c.eventWrite.value]
        else s.outbox,
      trace := if applied then s.trace + [Entry(id, c.cmd, c.now, Success)] else s.trace,
      tripLocks := Released(s.tripLocks, id),
      keyLocks := Released(s.keyLocks, id),
      calls := s.calls[id := c.(pc := Finished(reply, applied))])
  }

  ghost predicate CallEnabled(s: State, id: CallId, a: CallAction) {
    if a.Invoke? then id !in s.calls else
    id in s.calls && var c := s.calls[id];
    match a
    case Check(_) => c.pc == Checking && !c.cmd.Create?
    case Validate(_) => c.pc == Checking && c.cmd.Create?
    case Begin(_) => c.pc == Beginning
    case BeginError => c.pc == Beginning
    case Read => c.pc == Reading && (c.cmd.Key() in s.trips ==> c.cmd.Key() !in s.tripLocks)
    case VerifyRow => c.pc == Verifying && c.loaded.Some? && !c.cmd.Create?
    case Write =>
      && c.pc == Writing
      && if c.cmd.Create? then c.cmd.Key() in s.trips || c.cmd.Key() !in s.tripLocks
         else c.loaded.Some? && !HeldByOther(s.tripLocks, c.cmd.Key(), id)
    case Insert => c.pc == Inserting && c.tripWrite.Some? &&
                   (c.cmd.Publish? ==> PublishedEventId(c.tripWrite.value.id) !in s.keyLocks)
    case DbError => c.pc == Reading || c.pc == Writing || c.pc == Inserting
    case Commit(_) => c.pc == Committing && c.tripWrite.Some?
    case Rollback => c.pc.Aborting?
    case Crash(applied) => !c.pc.Finished? && (applied ==> c.pc == Committing && c.tripWrite.Some?)
  }

  /** The outbox changes, if at all, at an applied commit. */
  predicate AppliesCommand(a: CallAction) {
    (a.Commit? && a.result != CommitErrorLost) || (a.Crash? && a.applied)
  }

  ghost function CallNext(s: State, id: CallId, a: CallAction): (s': State)
    requires CallEnabled(s, id, a)
    ensures !AppliesCommand(a) ==> Publishers(s') == Publishers(s)
  {
    match a
    case Invoke(cmd) => SetCall(s, id, Call(cmd, Checking, 0, None, None, [], None))
    case Check(outcome) => DoCheck(s, id, outcome)
    case Validate(clock) => DoValidate(s, id, clock)
    case Begin(now) => DoBegin(s, id, now)
    case BeginError => Finish(s, id, Rejected(BeginErr(s.calls[id].cmd)), false)
    case Read => DoRead(s, id)
    case VerifyRow => DoVerify(s, id)
    case Write => if s.calls[id].cmd.Create? then DoInsertTrip(s, id) else DoUpdate(s, id)
    case Insert => if s.calls[id].cmd.Publish? then DoInsertEvent(s, id) else DoInsertHistory(s, id)
    case DbError => Goto(s, id, Aborting(QueryError(s.calls[id].cmd, s.calls[id].pc)))
    case Commit(outcome) =>
      Finish(s, id, if outcome == CommitOk then Accepted else Rejected(CommitError(s.calls[id].cmd)),
             outcome != CommitErrorLost)
    case Rollback => Finish(s, id, Rejected(BlockError(s.calls[id].cmd, s.calls[id].pc.err)), false)
    case Crash(applied) => Finish(s, id, NoReply, applied)
  }

  ghost function DoCheck(s: State, id: CallId, outcome: CheckOutcome): (s': State)
    requires CallEnabled(s, id, Check(outcome))
    ensures Publishers(s') == Publishers(s)
  {
    if outcome == Allowed then Goto(s, id, Beginning)
    else Finish(s, id, Rejected(CheckError(outcome)), false)
  }

  ghost function DoValidate(s: State, id: CallId, clock: Time): (s': State)
    requires CallEnabled(s, id, Validate(clock))
    ensures Publishers(s') == Publishers(s)
  {
    if ValidCreate(s.calls[id].cmd, clock) then Goto(s, id, Beginning)
    else Finish(s, id, Rejected(InvalidCommand()), false)
  }

  ghost function DoBegin(s: State, id: CallId, now: Time): (s': State)
    requires CallEnabled(s, id, Begin(now))
    ensures Publishers(s') == Publishers(s)
  {
    var c := s.calls[id];
    SetCall(s, id, c.(now := now, pc := if c.cmd.Create? then Writing else Reading))
  }

  /** SELECT ... FOR UPDATE, at the moment the row exists unlocked, or does not exist. */
  ghost function DoRead(s: State, id: CallId): (s': State)
    requires CallEnabled(s, id, Read)
    ensures Publishers(s') == Publishers(s)
  {
    var c := s.calls[id];
    if c.cmd.Key() !in s.trips then
      s.(calls := s.calls[id := c.(pc := Aborting(VerdictError(c.cmd, NotFound)))],
         trace := s.trace + [Entry(id, c.cmd, c.now, NotFound)])
    else
      s.(calls := s.calls[id := c.(pc := Verifying, loaded := Some(s.trips[c.cmd.Key()]))],
         tripLocks := s.tripLocks[c.cmd.Key() := id])
  }

  /** The checks on the loaded row; a success changes the status of the copy in memory. */
  ghost function DoVerify(s: State, id: CallId): (s': State)
    requires CallEnabled(s, id, VerifyRow)
    ensures Publishers(s') == Publishers(s)
  {
    var c := s.calls[id];
    var verdict := Verify(c.cmd, c.loaded.value);
    if verdict != Success then
      s.(calls := s.calls[id := c.(pc := Aborting(VerdictError(c.cmd, verdict)))],
         trace := s.trace + [Entry(id, c.cmd, c.now, verdict)])
    else
      SetCall(s, id, c.(pc := Writing, loaded := Some(c.loaded.value.(status := Target(c.cmd)))))
  }

  /** INSERT INTO trips, waiting for another uncommitted insert of the same key. */
  ghost function DoInsertTrip(s: State, id: CallId): (s': State)
    requires CallEnabled(s, id, Write) && s.calls[id].cmd.Create?
    ensures Publishers(s') == Publishers(s)
  {
    var c := s.calls[id];
    if c.cmd.Key() in s.trips || c.cmd.seats > MAX_INT4 then
      Goto(s, id, Aborting(QueryError(c.cmd, Writing)))
    else
      s.(calls := s.calls[id := c.(pc := Inserting, tripWrite := Some(CreatedTrip(c.cmd, c.now)))],
         tripLocks := s.tripLocks[c.cmd.Key() := id])
  }

  /** UPDATE trips and the history row of the same statement, from the copy in memory. */
  ghost function DoUpdate(s: State, id: CallId): (s': State)
    requires CallEnabled(s, id, Write) && !s.calls[id].cmd.Create?
    ensures Publishers(s') == Publishers(s)
  {
    var c := s.calls[id];
    if c.cmd.Key() !in s.trips then Goto(s, id, Aborting(VerdictError(c.cmd, NotFound))) else
    var current := s.trips[c.cmd.Key()];
    SetCall(s, id, c.(pc := if c.cmd.Publish? then Inserting else Committing,
                      tripWrite := Some(UpdatedTrip(current, c.loaded.value, c.now)),
                      historyWrite := UpdateHistory(current, c.loaded.value, c.now)))
  }

  /** INSERT INTO outbox_events ... ON CONFLICT (id) DO NOTHING */
  ghost function DoInsertEvent(s: State, id: CallId): (s': State)
    requires CallEnabled(s, id, Insert) && s.calls[id].cmd.Publish?
    ensures Publishers(s') == Publishers(s)
  {
    var c := s.calls[id];
    var eventId := PublishedEventId(c.tripWrite.value.id);
    if eventId in s.outbox then Goto(s, id, Committing) else
    s.(calls :=
       s.calls[id := c.(pc := Committing, eventWrite := Some(NewRow(NewHead(c.cmd, c.tripWrite.value, c.now))))],
       keyLocks := s.keyLocks[eventId := id])
  }

  ghost function DoInsertHistory(s: State, id: CallId): (s': State)
    requires CallEnabled(s, id, Insert)
    ensures Publishers(s') == Publishers(s)
  {
    var c := s.calls[id];
    SetCall(s, id,
            c.(pc := Committing, historyWrite := [HistoryRow(c.cmd.Key(), None, c.tripWrite.value.status, c.now)]))
  }

  // ----- publisher processes -----

  datatype PubAction =
    | Launch
    | OpenTx(now: Time)
    | OpenTxError
    | Snapshot(order: seq<Uuid>)
    | TakeRow
    | EndSelect
    | SendDecodeError
    | SendAck(copies: nat)
    | SendNack(copies: nat, text: string)
    | Mark
    | TxError
    | CommitTx(result: CommitOutcome)
    | RollbackTx
    | Count(ok: bool)
    | CrashPub(applied: bool)

  const IDLE_PUB := Pub(Resting, 0, [], [], 0, map[], {}, 0, Counters(0, 0, 0, None), Tally(0, 0, 0))

  /** `order` lists the pending rows of the statement's snapshot by created_at; ties may stand either way. */
  ghost predicate SortedPending(outbox: Outbox, order: seq<Uuid>) {
    && (forall id :: id in order <==> id in PendingIds(outbox))
    && (forall i, j :: 0 <= i < j < |order| ==> order[i] != order[j])
    && (forall i, j :: 0 <= i < j < |order| && order[i] in outbox && order[j] in outbox ==>
          outbox[order[i]].head.createdAt <= outbox[order[j]].head.createdAt)
  }

  /** The row a statement of the transaction sees: its own write if there is one, else the committed row. */
  function Seen(outbox: Outbox, writes: Outbox, id: Uuid): Option<OutboxRow> {
    if id in writes then Some(writes[id]) else if id in outbox then Some(outbox[id]) else None
  }

  function SetPub(s: State, p: PubId, pub: Pub): (s': State)
    ensures Commands(s') == Commands(s)
  {
    s.(pubs := s.pubs[p := pub])
  }

  predicate AllMarked(pub: Pub) {
    pub.pc == Sending && pub.next == |pub.batch|
  }

  /** The transaction ends.  Kafka and the counters stay as they are either way. */
  function EndTx(s: State, p: PubId, applied: bool): (s': State)
    requires p in s.pubs
    ensures Commands(s') == Commands(s) && s'.log == s.log && (!applied ==> s'.outbox == s.outbox)
  {
    var pub := s.pubs[p];
    var tally :=
      if applied then pub.tally.(sent := pub.tally.sent + |pub.acked|, attempts := pub.tally.attempts + pub.failures)
      else pub.tally.(lostAcks := pub.tally.lostAcks + |pub.acked|);
    s.(
      outbox := if applied then s.outbox + pub.writes else s.outbox,
      lost := if applied then s.lost else s.lost + multiset(pub.acked),
      eventLocks := Released(s.eventLocks, p),
      pubs := s.pubs[p := Pub(Counting, 0, [], [], 0, map[], {}, 0, pub.counters, tally)])
  }

  ghost predicate PubEnabled(s: State, p: PubId, a: PubAction) {
    if a.Launch? then p !in s.pubs else
    p in s.pubs && var pub := s.pubs[p];
    match a
    case OpenTx(_) => pub.pc == Resting
    case OpenTxError => pub.pc == Resting
    case Snapshot(order) => pub.pc == Opened && SortedPending(s.outbox, order)
    case TakeRow => pub.pc == Selecting && pub.queue != [] && |pub.batch| < BATCH_LIMIT
    case EndSelect => pub.pc == Selecting && (pub.queue == [] || |pub.batch| == BATCH_LIMIT)
    case SendDecodeError => pub.pc == Sending && pub.next < |pub.batch|
      && Unmarshal(pub.batch[pub.next].row.head.payload).None?
    case SendAck(copies) => pub.pc == Sending && pub.next < |pub.batch|
      && Unmarshal(pub.batch[pub.next].row.head.payload).Some? && copies >= 1
    case SendNack(copies, _) => pub.pc == Sending && pub.next < |pub.batch|
      && Unmarshal(pub.batch[pub.next].row.head.payload).Some?
    case Mark =>
      && (pub.pc == AckReceived || pub.pc.SendFailed?) && pub.next < |pub.batch|
      && !HeldByOther(s.eventLocks, pub.batch[pub.next].id, p)
    case TxError => pub.pc == Opened || pub.pc == Selecting || pub.pc == AckReceived || pub.pc.SendFailed?
    case CommitTx(_) => AllMarked(pub)
    case RollbackTx => pub.pc == Doomed
    case Count(_) => pub.pc == Counting
    case CrashPub(applied) => applied ==> AllMarked(pub)
  }

  predicate AppliesBatch(a: PubAction) {
    (a.CommitTx? && a.result != CommitErrorLost) || (a.CrashPub? && a.applied)
  }

  ghost function PubNext(s: State, p: PubId, a: PubAction): (s': State)
    requires PubEnabled(s, p, a)
    ensures Commands(s') == Commands(s) && s.log <= s'.log
    ensures !AppliesBatch(a) ==> s'.outbox == s.outbox
  {
    match a
    case Launch => SetPub(s, p, IDLE_PUB)
    case OpenTx(now) => SetPub(s, p, s.pubs[p].(pc := Opened, now := now))
    case OpenTxError => SetPub(s, p, s.pubs[p].(pc := Counting))
    case Snapshot(order) => SetPub(s, p, s.pubs[p].(pc := Selecting, queue := order))
    case TakeRow => DoTakeRow(s, p)
    case EndSelect => SetPub(s, p, s.pubs[p].(pc := Sending, queue := []))
    case SendDecodeError => DoSendFailed(s, p, [], DecodeFailure)
    case SendAck(copies) => DoSendAck(s, p, copies)
    case SendNack(copies, text) =>
      var picked := s.pubs[p].batch[s.pubs[p].next];
      DoSendFailed(s, p, Copies(picked.id, ToMessage(Unmarshal(picked.row.head.payload).value), copies),
                   SendFailure(text))
    case Mark => DoMark(s, p)
    case TxError => SetPub(s, p, s.pubs[p].(pc := Doomed))
    case CommitTx(outcome) => EndTx(s, p, outcome != CommitErrorLost)
    case RollbackTx => EndTx(s, p, false)
    case Count(ok) =>
      var pub := s.pubs[p];
      SetPub(s, p, pub.(pc := Resting,
        counters := if ok then pub.counters.(pendingGauge := Some(|PendingIds(s.outbox)|)) else pub.counters))
    case CrashPub(applied) =>
      var ended := EndTx(s, p, applied);
      ended.(pubs := ended.pubs - {p})
  }

  /**
   * One row of FOR UPDATE SKIP LOCKED, below the LIMIT: a locked row is skipped; a row that has left `pending`
   * since the snapshot fails the recheck and is skipped; any other is locked and returned in its newest version.
   */
  ghost function DoTakeRow(s: State, p: PubId): (s': State)
    requires PubEnabled(s, p, TakeRow)
    ensures Commands(s') == Commands(s) && s'.outbox == s.outbox && s'.log == s.log
  {
    var pub := s.pubs[p];
    var id, rest := pub.queue[0], pub.queue[1..];
    if id in s.eventLocks || id !in s.outbox || s.outbox[id].status != Pending
      then SetPub(s, p, pub.(queue := rest)) else
    s.(pubs := s.pubs[p := pub.(queue := rest, batch := pub.batch + [Picked(id, s.outbox[id])])],
       eventLocks := s.eventLocks[id := p])
  }

  ghost function DoSendAck(s: State, p: PubId, copies: nat): (s': State)
    requires PubEnabled(s, p, SendAck(copies))
    ensures Commands(s') == Commands(s) && s'.outbox == s.outbox && s.log <= s'.log
  {
    var pub := s.pubs[p];
    var picked := pub.batch[pub.next];
    s.(pubs := s.pubs[p := pub.(pc := AckReceived, acked := pub.acked + {picked.id},
                                counters := pub.counters.(success := pub.counters.success + 1))],
       log := s.log + Copies(picked.id, ToMessage(Unmarshal(picked.row.head.payload).value), copies),
       acks := s.acks + multiset{picked.id})
  }

  ghost function DoSendFailed(s: State, p: PubId, appended: seq<LogEntry>, reason: Reason): (s': State)
    requires p in s.pubs
    ensures Commands(s') == Commands(s) && s'.outbox == s.outbox && s.log <= s'.log
  {
    var pub := s.pubs[p];
    s.(pubs := s.pubs[p := pub.(pc := SendFailed(reason),
                                counters :=
                                  pub.counters.(errors := pub.counters.errors + 1, failed := pub.counters.failed + 1))],
       log := s.log + appended)
  }

  /** MarkSent or MarkFailed: an UPDATE by id alone, of whatever row has that id. */
  ghost function DoMark(s: State, p: PubId): (s': State)
    requires PubEnabled(s, p, Mark)
    ensures Commands(s') == Commands(s) && s'.outbox == s.outbox && s'.log == s.log
  {
    var pub := s.pubs[p];
    var id := pub.batch[pub.next].id;
    var seen := Seen(s.outbox, pub.writes, id);
    var failures := if pub.pc == AckReceived then pub.failures else pub.failures + 1;
    var writes :=
      if seen.None? then pub.writes
      else pub.writes[id := if pub.pc == AckReceived then SentRow(seen.value, pub.now)
                      else FailedRow(seen.value, pub.pc.reason)];
    SetPub(s, p, pub.(pc := Sending, next := pub.next + 1, writes := writes, failures := failures))
  }

  // ----- runs -----

  datatype Action = CallStep(call: CallId, call_action: CallAction) | PubStep(pub: PubId, pub_action: PubAction)

  ghost predicate Enabled(s: State, a: Action) {
    match a
    case CallStep(id, act) => CallEnabled(s, id, act)
    case PubStep(p, act) => PubEnabled(s, p, act)
  }

  ghost function Next(s: State, a: Action): State
    requires Enabled(s, a)
  {
    match a
    case CallStep(id, act) => CallNext(s, id, act)
    case PubStep(p, act) => PubNext(s, p, act)
  }

  ghost predicate ValidRun(s: State, run: seq<Action>)
    decreases |run|, 0
  {
    run == [] || (ValidRun(s, run[..|run| - 1]) && Enabled(Final(s, run[..|run| - 1]), run[|run| - 1]))
  }

  ghost function Final(s: State, run: seq<Action>): State
    requires ValidRun(s, run)
    decreases |run|, 1
  {
    if run == [] then s else Next(Final(s, run[..|run| - 1]), run[|run| - 1])
  }

  /** Action `i` of `run` leads from state `i` to state `i + 1`. */
  ghost predicate StepAt(states: seq<State>, run: seq<Action>, i: nat)
    requires i < |run| && |states| == |run| + 1
  {
    Enabled(states[i], run[i]) && states[i + 1] == Next(states[i], run[i])
  }

  ghost predicate Behaviour(states: seq<State>, run: seq<Action>) {
    |states| == |run| + 1 && forall i {:trigger StepAt(states, run, i)} :: 0 <= i < |run| ==> StepAt(states, run, i)
  }

  ghost predicate Links(states: seq<State>, run: seq<Action>, s: State, s': State) {
    Behaviour(states, run) && states[0] == s && states[|run|] == s'
  }

  /** `run` is a run from `s` to `s'`. */
  ghost predicate Leads(s: State, run: seq<Action>, s': State) {
    exists states {:trigger Links(states, run, s, s')} :: Links(states, run, s, s')
  }

  lemma LeadsNowhere(s: State)
    ensures Leads(s, [], s)
  {
    assert Links([s], [], s, s);
  }

  lemma LeadsNext(s: State, run: seq<Action>, s': State, a: Action)
    requires Leads(s, run, s') && Enabled(s', a)
    ensures Leads(s, run + [a], Next(s', a))
  {
    var states :| Links(states, run, s, s');
    var longer := states + [Next(s', a)];
    forall i: nat | i < |run + [a]| ensures StepAt(longer, run + [a], i) {
      if i < |run| { assert StepAt(states, run, i); }
    }
    assert Links(longer, run + [a], s, Next(s', a));
  }

  lemma LeadsOn(s: State, run: seq<Action>, s': State, run': seq<Action>, s'': State)
    requires Leads(s, run, s') && Leads(s', run', s'')
    ensures Leads(s, run + run', s'')
  {
    var states :| Links(states, run, s, s');
    var states' :| Links(states', run', s', s'');
    var all := states + states'[1..];
    forall i: nat | i < |run + run'| ensures StepAt(all, run + run', i) {
      if i < |run| { assert StepAt(states, run, i); } else { assert StepAt(states', run', i - |run|); }
    }
    assert Links(all, run + run', s, s'');
  }

  /** Any stretch of a run is a run. */
  lemma PartLeads(states: seq<State>, run: seq<Action>, i: nat, j: nat)
    requires Behaviour(states, run) && i <= j <= |run|
    ensures Leads(states[i], run[i..j], states[j])
  {
    var part, steps := states[i..j + 1], run[i..j];
    forall k: nat | k < |steps| ensures StepAt(part, steps, k) { assert StepAt(states, run, i + k); }
    assert Links(part, steps, states[i], states[j]);
  }

  /** The two ways to speak of a run agree. */
  lemma {:induction false} LeadsIsFinal(s: State, run: seq<Action>, s': State)
    requires Leads(s, run, s')
    ensures ValidRun(s, run) && Final(s, run) == s'
    decreases |run|
  {
    var states :| Links(states, run, s, s');
    if run != [] {
      var n := |run| - 1;
      var shorter := run[..n];
      var earlier := states[..n + 1];
      forall i: nat | i < n ensures StepAt(earlier, shorter, i) { assert StepAt(states, run, i); }
      assert Links(earlier, shorter, s, states[n]);
      LeadsIsFinal(s, shorter, states[n]);
      assert StepAt(states, run, n);
    }
  }

  /**
   * Nothing has happened yet: no trips, no actors.  The outbox may hold rows from before, of random ids,
   * which are not sent and whose payload does not claim the event id of a trip (migrations/00005).
   */
  ghost predicate Init(s: State) {
    && s == State(map[], [], s.outbox, map[], map[], map[], map[], map[], [], [], multiset{}, multiset{})
    && forall id :: id in s.outbox ==> Legacy(id, s.outbox[id])
  }

  predicate Legacy(id: Uuid, row: OutboxRow) {
    && !id.V5? && row.status != Sent
    && (Unmarshal(row.head.payload).Some? ==> !Unmarshal(row.head.payload).value.eventId.V5?)
  }
}
