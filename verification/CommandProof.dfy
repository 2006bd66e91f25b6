/** What the command calls keep, whatever the interleaving, and why every commit is one serial execution. */
module CommandProof {
  import opened Domain
  import opened Errors
  import opened Serial
  import opened Protocol

  // ----- one call -----

  predicate NoWrites(c: Call) {
    c.tripWrite == None && c.historyWrite == [] && c.eventWrite == None
  }

  predicate HoldsKey(c: Call, id: CallId, tripLocks: map<Uuid, CallId>) {
    c.cmd.Key() in tripLocks && tripLocks[c.cmd.Key()] == id
  }

  /** The row the command may change is there, and passes its checks. */
  predicate RowReady(c: Call, trips: map<Uuid, Trip>) {
    if c.cmd.Create? then c.cmd.Key() !in trips
    else c.cmd.Key() in trips && Verify(c.cmd, trips[c.cmd.Key()]) == Success
  }

  /** The copy in memory after a successful check. */
  function Retitled(c: Call, trip: Trip): Trip {
    trip.(status := Target(c.cmd))
  }

  function NewTripRow(c: Call, trips: map<Uuid, Trip>): Trip
    requires RowReady(c, trips)
  {
    if c.cmd.Create? then CreatedTrip(c.cmd, c.now)
    else UpdatedTrip(trips[c.cmd.Key()], Retitled(c, trips[c.cmd.Key()]), c.now)
  }

  function NewHistory(c: Call, trips: map<Uuid, Trip>): seq<HistoryRow>
    requires RowReady(c, trips)
  {
    if c.cmd.Create? then [HistoryRow(c.cmd.Key(), None, Draft, c.now)]
    else UpdateHistory(trips[c.cmd.Key()], Retitled(c, trips[c.cmd.Key()]), c.now)
  }

  /** At the commit, the event is pending insertion unless the key is already taken. */
  predicate EventReady(c: Call, id: CallId, trips: map<Uuid, Trip>, keyLocks: map<Uuid, CallId>, taken: set<Uuid>)
    requires RowReady(c, trips)
  {
    var eventId := PublishedEventId(c.cmd.Key());
    if c.cmd.Publish? && eventId !in taken
    then c.eventWrite == Some(NewRow(NewHead(c.cmd, NewTripRow(c, trips), c.now))) && eventId in keyLocks
      && keyLocks[eventId] == id
    else c.eventWrite == None
  }

  predicate CallOk(c: Call, id: CallId, trips: map<Uuid, Trip>, tripLocks: map<Uuid, CallId>,
                   keyLocks: map<Uuid, CallId>, taken: set<Uuid>) {
    match c.pc
    case Checking => NoWrites(c)
    case Beginning => NoWrites(c)
    case Reading => NoWrites(c) && !c.cmd.Create?
    case Verifying =>
      && NoWrites(c) && !c.cmd.Create? && HoldsKey(c, id, tripLocks)
      && c.cmd.Key() in trips && c.loaded == Some(trips[c.cmd.Key()])
    case Writing =>
      && NoWrites(c)
      && (!c.cmd.Create? ==>
          HoldsKey(c, id, tripLocks) && RowReady(c, trips) && c.loaded == Some(Retitled(c, trips[c.cmd.Key()])))
    case Inserting =>
      && !c.cmd.Start? && HoldsKey(c, id, tripLocks) && RowReady(c, trips) && c.tripWrite == Some(NewTripRow(c, trips))
      && (c.cmd.Publish? ==> c.historyWrite == NewHistory(c, trips)) && c.eventWrite == None
    case Committing =>
      && HoldsKey(c, id, tripLocks) && RowReady(c, trips) && c.tripWrite == Some(NewTripRow(c, trips))
      && c.historyWrite == NewHistory(c, trips) && EventReady(c, id, trips, keyLocks, taken)
    case Aborting(_) => true
    case Finished(_, _) => true
  }

  // ----- all calls -----

  predicate MayHoldKey(c: Call) {
    || c.pc == Verifying || (c.pc == Writing && !c.cmd.Create?) || c.pc == Inserting || c.pc == Committing
    || c.pc.Aborting?
  }

  predicate IdsMatch(trips: map<Uuid, Trip>) {
    forall t :: t in trips ==> trips[t].id == t
  }

  ghost predicate CallsOk(s: State) {
    forall id :: id in s.calls ==> CallOk(s.calls[id], id, s.trips, s.tripLocks, s.keyLocks, s.outbox.Keys)
  }

  ghost predicate TripLocksOwned(calls: map<CallId, Call>, tripLocks: map<Uuid, CallId>) {
    forall t :: t in tripLocks ==>
      tripLocks[t] in calls && calls[tripLocks[t]].cmd.Key() == t && MayHoldKey(calls[tripLocks[t]])
  }

  ghost predicate KeyLocksOwned(calls: map<CallId, Call>, keyLocks: map<Uuid, CallId>) {
    forall k :: k in keyLocks ==>
      && keyLocks[k] in calls && calls[keyLocks[k]].pc == Committing && calls[keyLocks[k]].cmd.Publish?
      && PublishedEventId(calls[keyLocks[k]].cmd.Key()) == k
  }

  ghost predicate CommandInv(s: State) {
    && IdsMatch(s.trips) && CallsOk(s)
    && TripLocksOwned(s.calls, s.tripLocks) && KeyLocksOwned(s.calls, s.keyLocks)
  }

  // ----- frames -----

  /** A call is indifferent to rows and keys it has not locked. */
  lemma OtherCall(c: Call, id: CallId,
                  trips: map<Uuid, Trip>, tripLocks: map<Uuid, CallId>, keyLocks: map<Uuid, CallId>, taken: set<Uuid>,
                  trips': map<Uuid, Trip>, tripLocks': map<Uuid, CallId>, keyLocks': map<Uuid, CallId>,
                  taken': set<Uuid>)
    requires CallOk(c, id, trips, tripLocks, keyLocks, taken)
    requires HoldsKey(c, id, tripLocks) ==>
      && HoldsKey(c, id, tripLocks')
      && (c.cmd.Key() in trips <==> c.cmd.Key() in trips')
      && (c.cmd.Key() in trips ==> trips'[c.cmd.Key()] == trips[c.cmd.Key()])
      && (PublishedEventId(c.cmd.Key()) in taken <==> PublishedEventId(c.cmd.Key()) in taken')
    requires forall k :: k in keyLocks && keyLocks[k] == id ==> k in keyLocks' && keyLocks'[k] == id
    ensures CallOk(c, id, trips', tripLocks', keyLocks', taken')
  {
  }

  /** The call moves on without touching a table or a lock. */
  lemma CallMoves(s: State, id: CallId, c: Call)
    requires CommandInv(s) && CallOk(c, id, s.trips, s.tripLocks, s.keyLocks, s.outbox.Keys)
    requires id in s.calls ==>
      c.cmd == s.calls[id].cmd && (MayHoldKey(s.calls[id]) ==> MayHoldKey(c)) && s.calls[id].pc != Committing
    ensures CommandInv(SetCall(s, id, c))
  {
    CallMovesLocks(s, id, c);
  }

  lemma CallMovesLocks(s: State, id: CallId, c: Call)
    requires TripLocksOwned(s.calls, s.tripLocks) && KeyLocksOwned(s.calls, s.keyLocks)
    requires id in s.calls ==>
      c.cmd == s.calls[id].cmd && (MayHoldKey(s.calls[id]) ==> MayHoldKey(c)) && s.calls[id].pc != Committing
    ensures TripLocksOwned(s.calls[id := c], s.tripLocks) && KeyLocksOwned(s.calls[id := c], s.keyLocks)
  {
  }

  /** The call takes the row lock of its own key, which was free. */
  lemma CallLocks(s: State, id: CallId, c: Call)
    requires CommandInv(s) && id in s.calls && c.cmd == s.calls[id].cmd && c.cmd.Key() !in s.tripLocks
    requires s.calls[id].pc == Reading || s.calls[id].pc == Writing
    requires MayHoldKey(c) && CallOk(c, id, s.trips, s.tripLocks[c.cmd.Key() := id], s.keyLocks, s.outbox.Keys)
    ensures CommandInv(s.(calls := s.calls[id := c], tripLocks := s.tripLocks[c.cmd.Key() := id]))
  {
    CallLocksCalls(s, id, c);
    CallLocksOwned(s, id, c);
  }

  lemma CallLocksCalls(s: State, id: CallId, c: Call)
    requires CallsOk(s) && id in s.calls && c.cmd.Key() !in s.tripLocks
    requires CallOk(c, id, s.trips, s.tripLocks[c.cmd.Key() := id], s.keyLocks, s.outbox.Keys)
    ensures CallsOk(s.(calls := s.calls[id := c], tripLocks := s.tripLocks[c.cmd.Key() := id]))
  {
    var locks := s.tripLocks[c.cmd.Key() := id];
    forall o | o in s.calls && o != id ensures CallOk(s.calls[o], o, s.trips, locks, s.keyLocks, s.outbox.Keys) {
      OtherCall(s.calls[o], o, s.trips, s.tripLocks, s.keyLocks, s.outbox.Keys, s.trips, locks, s.keyLocks,
                s.outbox.Keys);
    }
  }

  lemma CallLocksOwned(s: State, id: CallId, c: Call)
    requires TripLocksOwned(s.calls, s.tripLocks) && KeyLocksOwned(s.calls, s.keyLocks)
    requires id in s.calls && c.cmd == s.calls[id].cmd && MayHoldKey(c) && s.calls[id].pc != Committing
    ensures TripLocksOwned(s.calls[id := c], s.tripLocks[c.cmd.Key() := id])
    ensures KeyLocksOwned(s.calls[id := c], s.keyLocks)
  {
  }

  // ----- the end of a transaction -----

  lemma FinishKeeps(s: State, id: CallId, reply: Reply, applied: bool)
    requires CommandInv(s) && id in s.calls && (applied ==> s.calls[id].pc == Committing)
    ensures CommandInv(Finish(s, id, reply, applied))
  {
    FinishCalls(s, id, reply, applied);
    FinishLocks(s, id, reply, applied);
  }

  lemma FinishCalls(s: State, id: CallId, reply: Reply, applied: bool)
    requires CommandInv(s) && id in s.calls && (applied ==> s.calls[id].pc == Committing)
    ensures IdsMatch(Finish(s, id, reply, applied).trips) && CallsOk(Finish(s, id, reply, applied))
  {
    var s' := Finish(s, id, reply, applied);
    forall o | o in s'.calls && o != id
      ensures CallOk(s'.calls[o], o, s'.trips, s'.tripLocks, s'.keyLocks, s'.outbox.Keys)
    {
      OtherCall(s.calls[o], o, s.trips, s.tripLocks, s.keyLocks, s.outbox.Keys, s'.trips, s'.tripLocks, s'.keyLocks,
                s'.outbox.Keys);
    }
  }

  lemma FinishLocks(s: State, id: CallId, reply: Reply, applied: bool)
    requires TripLocksOwned(s.calls, s.tripLocks) && KeyLocksOwned(s.calls, s.keyLocks)
    requires id in s.calls && (applied ==> s.calls[id].tripWrite.Some?)
    ensures var s' := Finish(s, id, reply, applied);
      TripLocksOwned(s'.calls, s'.tripLocks) && KeyLocksOwned(s'.calls, s'.keyLocks)
  {
  }

  // ----- every command action keeps the invariant -----

  lemma CallStepKeeps(s: State, id: CallId, a: CallAction)
    requires CommandInv(s) && CallEnabled(s, id, a)
    ensures CommandInv(CallNext(s, id, a))
  {
    match a
    case Invoke(cmd) => CallMoves(s, id, Call(cmd, Checking, 0, None, None, [], None));
    case Check(outcome) => CheckKeeps(s, id, outcome);
    case Validate(clock) => ValidateKeeps(s, id, clock);
    case Begin(now) => CallMoves(s, id, CallNext(s, id, a).calls[id]);
    case BeginError => FinishKeeps(s, id, CallNext(s, id, a).calls[id].pc.reply, false);
    case Read => ReadKeeps(s, id);
    case VerifyRow => VerifyKeeps(s, id);
    case Write => WriteKeeps(s, id);
    case Insert => InsertKeeps(s, id);
    case DbError => CallMoves(s, id, CallNext(s, id, a).calls[id]);
    case Commit(result) => FinishKeeps(s, id, CallNext(s, id, a).calls[id].pc.reply, result != CommitErrorLost);
    case Rollback => FinishKeeps(s, id, CallNext(s, id, a).calls[id].pc.reply, false);
    case Crash(applied) => FinishKeeps(s, id, NoReply, applied);
  }

  lemma CheckKeeps(s: State, id: CallId, outcome: CheckOutcome)
    requires CommandInv(s) && CallEnabled(s, id, Check(outcome))
    ensures CommandInv(DoCheck(s, id, outcome))
  {
    if outcome == Allowed {
      CallMoves(s, id, s.calls[id].(pc := Beginning));
    } else {
      FinishKeeps(s, id, Rejected(CheckError(outcome)), false);
    }
  }

  lemma ValidateKeeps(s: State, id: CallId, clock: Time)
    requires CommandInv(s) && CallEnabled(s, id, Validate(clock))
    ensures CommandInv(DoValidate(s, id, clock))
  {
    if ValidCreate(s.calls[id].cmd, clock) {
      CallMoves(s, id, s.calls[id].(pc := Beginning));
    } else {
      FinishKeeps(s, id, Rejected(InvalidCommand()), false);
    }
  }

  lemma ReadKeeps(s: State, id: CallId)
    requires CommandInv(s) && CallEnabled(s, id, Read)
    ensures CommandInv(DoRead(s, id))
  {
    var c' := DoRead(s, id).calls[id];
    if c'.pc == Verifying {
      CallLocks(s, id, c');
    } else {
      CallMoves(s, id, c');
    }
  }

  lemma VerifyKeeps(s: State, id: CallId)
    requires CommandInv(s) && CallEnabled(s, id, VerifyRow)
    ensures CommandInv(DoVerify(s, id))
  {
    VerifyOk(s, id);
    CallMoves(s, id, DoVerify(s, id).calls[id]);
    SameButTrace(SetCall(s, id, DoVerify(s, id).calls[id]), DoVerify(s, id));
  }

  lemma VerifyOk(s: State, id: CallId)
    requires CallEnabled(s, id, VerifyRow) && CallOk(s.calls[id], id, s.trips, s.tripLocks, s.keyLocks, s.outbox.Keys)
    ensures var s' := DoVerify(s, id);
      && id in s'.calls && s' == SetCall(s, id, s'.calls[id]).(trace := s'.trace)
      && s'.calls[id].cmd == s.calls[id].cmd && MayHoldKey(s'.calls[id])
      && CallOk(s'.calls[id], id, s.trips, s.tripLocks, s.keyLocks, s.outbox.Keys)
  {
  }

  lemma SameButTrace(s: State, s': State)
    requires CommandInv(s) && s' == s.(trace := s'.trace)
    ensures CommandInv(s')
  {
  }

  lemma WriteKeeps(s: State, id: CallId)
    requires CommandInv(s) && CallEnabled(s, id, Write)
    ensures CommandInv(CallNext(s, id, Write))
  {
    if s.calls[id].cmd.Create? {
      InsertTripKeeps(s, id);
    } else {
      UpdateKeeps(s, id);
    }
  }

  lemma InsertTripKeeps(s: State, id: CallId)
    requires CommandInv(s) && CallEnabled(s, id, Write) && s.calls[id].cmd.Create?
    ensures CommandInv(DoInsertTrip(s, id))
  {
    var c := s.calls[id];
    if c.cmd.Key() in s.trips || c.cmd.seats > MAX_INT4 {
      CallMoves(s, id, c.(pc := Aborting(QueryError(c.cmd, Writing))));
    } else {
      CallLocks(s, id, c.(pc := Inserting, tripWrite := Some(CreatedTrip(c.cmd, c.now))));
    }
  }

  lemma UpdateKeeps(s: State, id: CallId)
    requires CommandInv(s) && CallEnabled(s, id, Write) && !s.calls[id].cmd.Create?
    ensures CommandInv(DoUpdate(s, id))
  {
    var c, c' := s.calls[id], DoUpdate(s, id).calls[id];
    UpdateOk(c, c', id, s);
    CallMoves(s, id, c');
  }

  lemma UpdateOk(c: Call, c': Call, id: CallId, s: State)
    requires CallEnabled(s, id, Write) && c == s.calls[id] && !c.cmd.Create? && c' == DoUpdate(s, id).calls[id]
    requires CallOk(c, id, s.trips, s.tripLocks, s.keyLocks, s.outbox.Keys)
    ensures CallOk(c', id, s.trips, s.tripLocks, s.keyLocks, s.outbox.Keys)
    ensures c'.cmd == c.cmd && MayHoldKey(c') && DoUpdate(s, id) == SetCall(s, id, c')
  {
  }

  lemma InsertKeeps(s: State, id: CallId)
    requires CommandInv(s) && CallEnabled(s, id, Insert)
    ensures CommandInv(CallNext(s, id, Insert))
  {
    if s.calls[id].cmd.Publish? {
      InsertEventKeeps(s, id);
    } else {
      InsertHistoryKeeps(s, id);
    }
  }

  lemma InsertHistoryKeeps(s: State, id: CallId)
    requires CommandInv(s) && CallEnabled(s, id, Insert) && !s.calls[id].cmd.Publish?
    ensures CommandInv(DoInsertHistory(s, id))
  {
    CallMoves(s, id, DoInsertHistory(s, id).calls[id]);
  }

  lemma InsertEventKeeps(s: State, id: CallId)
    requires CommandInv(s) && CallEnabled(s, id, Insert) && s.calls[id].cmd.Publish?
    ensures CommandInv(DoInsertEvent(s, id))
  {
    InsertsOwnKey(s, id);
    if PublishedEventId(s.calls[id].cmd.Key()) in s.outbox {
      CallMoves(s, id, s.calls[id].(pc := Committing));
    } else {
      InsertEventCalls(s, id);
      InsertEventLocks(s, id);
    }
  }

  /** A publish call that reaches the event insert computes the event id of its own trip. */
  lemma InsertsOwnKey(s: State, id: CallId)
    requires IdsMatch(s.trips) && CallsOk(s) && CallEnabled(s, id, Insert) && s.calls[id].cmd.Publish?
    ensures s.calls[id].tripWrite.value.id == s.calls[id].cmd.Key()
  {
    assert CallOk(s.calls[id], id, s.trips, s.tripLocks, s.keyLocks, s.outbox.Keys);
  }

  lemma InsertEventCalls(s: State, id: CallId)
    requires IdsMatch(s.trips) && CallsOk(s) && CallEnabled(s, id, Insert) && s.calls[id].cmd.Publish?
    requires PublishedEventId(s.calls[id].cmd.Key()) !in s.outbox
    ensures CallsOk(DoInsertEvent(s, id))
  {
    InsertsOwnKey(s, id);
    var keyLocks := DoInsertEvent(s, id).keyLocks;
    forall o | o in s.calls && o != id ensures CallOk(s.calls[o], o, s.trips, s.tripLocks, keyLocks, s.outbox.Keys) {
      OtherCall(s.calls[o], o, s.trips, s.tripLocks, s.keyLocks, s.outbox.Keys, s.trips, s.tripLocks, keyLocks,
                s.outbox.Keys);
    }
  }

  lemma InsertEventLocks(s: State, id: CallId)
    requires CommandInv(s) && CallEnabled(s, id, Insert) && s.calls[id].cmd.Publish?
    requires PublishedEventId(s.calls[id].cmd.Key()) !in s.outbox
    ensures var s' := DoInsertEvent(s, id);
      TripLocksOwned(s'.calls, s'.tripLocks) && KeyLocksOwned(s'.calls, s'.keyLocks)
  {
    InsertsOwnKey(s, id);
    KeyTaken(s.calls, s.tripLocks, s.keyLocks, id, DoInsertEvent(s, id).calls[id]);
  }

  lemma KeyTaken(calls: map<CallId, Call>, tripLocks: map<Uuid, CallId>, keyLocks: map<Uuid, CallId>, id: CallId,
                 c: Call)
    requires TripLocksOwned(calls, tripLocks) && KeyLocksOwned(calls, keyLocks)
    requires id in calls && c.cmd == calls[id].cmd && c.cmd.Publish? && c.pc == Committing
    ensures TripLocksOwned(calls[id := c], tripLocks)
    ensures KeyLocksOwned(calls[id := c], keyLocks[PublishedEventId(c.cmd.Key()) := id])
  {
  }

  // ----- refinement of the serial machine -----

  lemma CommitIsSerial(s: State, id: CallId, reply: Reply)
    requires CommandInv(s) && id in s.calls && s.calls[id].pc == Committing
    ensures var c := s.calls[id];
      Exec(View(s), c.cmd, c.now) == Execution(View(Finish(s, id, reply, true)), Success)
  {
    var c := s.calls[id];
    assert CallOk(c, id, s.trips, s.tripLocks, s.keyLocks, s.outbox.Keys);
    if c.eventWrite.Some? { HeadsInsert(s.outbox, PublishedEventId(c.cmd.Key()), c.eventWrite.value); }
  }

  lemma HeadsInsert(outbox: Outbox, id: Uuid, row: OutboxRow)
    ensures Heads(outbox[id := row]) == Heads(outbox)[id := row.head]
  {
  }

  lemma FinishSerial(d0: Tables, s: State, id: CallId, reply: Reply, applied: bool)
    requires CommandInv(s) && id in s.calls && (applied ==> s.calls[id].pc == Committing)
    requires Serializes(d0, s.trace, View(s))
    ensures Serializes(d0, Finish(s, id, reply, applied).trace, View(Finish(s, id, reply, applied)))
  {
    if applied {
      CommitIsSerial(s, id, reply);
      SerializesStep(d0, s.trace, View(s), Entry(id, s.calls[id].cmd, s.calls[id].now, Success));
    } else {
      SameView(s, Finish(s, id, reply, false));
    }
  }

  lemma SameView(s: State, s': State)
    requires s'.trips == s.trips && s'.history == s.history && s'.outbox == s.outbox
    ensures View(s') == View(s)
  {
  }

  lemma ReadSerial(d0: Tables, s: State, id: CallId)
    requires CallEnabled(s, id, Read) && !s.calls[id].cmd.Create? && Serializes(d0, s.trace, View(s))
    ensures Serializes(d0, DoRead(s, id).trace, View(DoRead(s, id)))
  {
    SameView(s, DoRead(s, id));
    SerializesStep(d0, s.trace, View(s),
                   Entry(id, s.calls[id].cmd, s.calls[id].now,
                         Exec(View(s), s.calls[id].cmd, s.calls[id].now).verdict));
  }

  /** The row cannot have changed between the read and the check, so the check finds what the serial machine finds. */
  lemma VerifyAgrees(s: State, id: CallId)
    requires CallsOk(s) && CallEnabled(s, id, VerifyRow)
    ensures var c := s.calls[id];
      && Exec(View(s), c.cmd, c.now).verdict == Verify(c.cmd, c.loaded.value)
      && (Verify(c.cmd, c.loaded.value) != Success ==> Exec(View(s), c.cmd, c.now).tables == View(s))
  {
    assert CallOk(s.calls[id], id, s.trips, s.tripLocks, s.keyLocks, s.outbox.Keys);
  }

  lemma VerifyRecords(s: State, id: CallId)
    requires CallEnabled(s, id, VerifyRow)
    ensures var c := s.calls[id];
      var v := Verify(c.cmd, c.loaded.value);
      && DoVerify(s, id).trace == s.trace + (if v == Success then [] else [Entry(id, c.cmd, c.now, v)])
      && View(DoVerify(s, id)) == View(s)
  {
    SameView(s, DoVerify(s, id));
  }

  lemma VerifySerial(d0: Tables, s: State, id: CallId)
    requires CallsOk(s) && CallEnabled(s, id, VerifyRow) && Serializes(d0, s.trace, View(s))
    ensures Serializes(d0, DoVerify(s, id).trace, View(DoVerify(s, id)))
  {
    var c := s.calls[id];
    var v := Verify(c.cmd, c.loaded.value);
    VerifyAgrees(s, id);
    VerifyRecords(s, id);
    if v != Success { SerializesStep(d0, s.trace, View(s), Entry(id, c.cmd, c.now, v)); }
  }

  lemma InsertTripIsPrivate(s: State, id: CallId)
    requires CallEnabled(s, id, Write) && s.calls[id].cmd.Create?
    ensures View(DoInsertTrip(s, id)) == View(s) && DoInsertTrip(s, id).trace == s.trace
  {
    SameView(s, DoInsertTrip(s, id));
  }

  lemma UpdateIsPrivate(s: State, id: CallId)
    requires CallEnabled(s, id, Write) && !s.calls[id].cmd.Create?
    ensures View(DoUpdate(s, id)) == View(s) && DoUpdate(s, id).trace == s.trace
  {
    SameView(s, DoUpdate(s, id));
  }

  lemma WriteIsPrivate(s: State, id: CallId)
    requires CallEnabled(s, id, Write)
    ensures s.calls[id].cmd.Create? ==> View(DoInsertTrip(s, id)) == View(s) && DoInsertTrip(s, id).trace == s.trace
    ensures !s.calls[id].cmd.Create? ==> View(DoUpdate(s, id)) == View(s) && DoUpdate(s, id).trace == s.trace
  {
    if s.calls[id].cmd.Create? { InsertTripIsPrivate(s, id); } else { UpdateIsPrivate(s, id); }
  }

  lemma InsertIsPrivate(s: State, id: CallId)
    requires CallEnabled(s, id, Insert)
    ensures s.calls[id].cmd.Publish? ==> View(DoInsertEvent(s, id)) == View(s) && DoInsertEvent(s, id).trace == s.trace
    ensures View(DoInsertHistory(s, id)) == View(s) && DoInsertHistory(s, id).trace == s.trace
  {
    if s.calls[id].cmd.Publish? { SameView(s, DoInsertEvent(s, id)); }
    SameView(s, DoInsertHistory(s, id));
  }

  /** Every command action leaves committed data and trace alone, or is one serial execution recorded in the trace. */
  lemma CallStepSerial(d0: Tables, s: State, id: CallId, a: CallAction)
    requires CommandInv(s) && CallEnabled(s, id, a) && Serializes(d0, s.trace, View(s))
    ensures Serializes(d0, CallNext(s, id, a).trace, View(CallNext(s, id, a)))
  {
    match a
    case Read => ReadSerial(d0, s, id);
    case VerifyRow => VerifySerial(d0, s, id);
    case Write => WriteIsPrivate(s, id);
    case Insert => InsertIsPrivate(s, id);
    case _ => EndSerial(d0, s, id, a);
  }

  lemma EndSerial(d0: Tables, s: State, id: CallId, a: CallAction)
    requires CommandInv(s) && CallEnabled(s, id, a) && Serializes(d0, s.trace, View(s))
    requires !a.Read? && !a.VerifyRow? && !a.Write? && !a.Insert?
    ensures Serializes(d0, CallNext(s, id, a).trace, View(CallNext(s, id, a)))
  {
    if AppliesCommand(a) {
      AppliedSerial(d0, s, id, a);
    } else {
      IdleSerial(d0, s, id, a);
    }
  }

  /** Commit, or a crash after the commit. */
  lemma AppliedSerial(d0: Tables, s: State, id: CallId, a: CallAction)
    requires CommandInv(s) && CallEnabled(s, id, a) && Serializes(d0, s.trace, View(s)) && AppliesCommand(a)
    ensures Serializes(d0, CallNext(s, id, a).trace, View(CallNext(s, id, a)))
  {
    var reply := CallNext(s, id, a).calls[id].pc.reply;
    assert CallNext(s, id, a) == Finish(s, id, reply, true);
    FinishSerial(d0, s, id, reply, true);
  }

  lemma IdleSerial(d0: Tables, s: State, id: CallId, a: CallAction)
    requires CallEnabled(s, id, a) && Serializes(d0, s.trace, View(s)) && !AppliesCommand(a)
    requires !a.Read? && !a.VerifyRow? && !a.Write? && !a.Insert?
    ensures Serializes(d0, CallNext(s, id, a).trace, View(CallNext(s, id, a)))
  {
    IdleKeepsTables(s, id, a);
    SameView(s, CallNext(s, id, a));
  }

  lemma IdleKeepsTables(s: State, id: CallId, a: CallAction)
    requires CallEnabled(s, id, a) && !AppliesCommand(a)
    requires !a.Read? && !a.VerifyRow? && !a.Write? && !a.Insert?
    ensures var s' := CallNext(s, id, a);
      s'.trips == s.trips && s'.history == s.history && s'.outbox == s.outbox && s'.trace == s.trace
  {
  }
}
