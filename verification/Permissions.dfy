/** A command takes effect only after the contract service has allowed this very command. */
module Permissions {
  import opened Domain
  import opened Errors
  import opened Serial
  import opened Protocol
  import C = CommandProof
  import opened System
  import opened Theorems

  // ----- how a call gets into its transaction -----

  /** Call `id` has been let in, and is not over. */
  predicate LetIn(s: State, id: CallId) {
    id in s.calls && s.calls[id].pc != Checking && !s.calls[id].pc.Finished?
  }

  /** An action of call `id` changes that call alone, and neither its command nor, once it has begun, its time. */
  predicate MovesAlone(s: State, id: CallId, s': State) {
    && id in s'.calls && s'.calls == s.calls[id := s'.calls[id]]
    && (id in s.calls ==>
          && s'.calls[id].cmd == s.calls[id].cmd
          && (s.calls[id].pc != Beginning ==> s'.calls[id].now == s.calls[id].now))
  }

  lemma LoadMovesAlone(s: State, id: CallId, a: CallAction)
    requires CallEnabled(s, id, a) && (a.Read? || a.VerifyRow?)
    ensures MovesAlone(s, id, CallNext(s, id, a))
  {
    assert CallNext(s, id, a) == if a.Read? then DoRead(s, id) else DoVerify(s, id);
  }

  lemma InsertTripMovesAlone(s: State, id: CallId)
    requires CallEnabled(s, id, Write) && s.calls[id].cmd.Create?
    ensures MovesAlone(s, id, DoInsertTrip(s, id))
  {
  }

  lemma UpdateMovesAlone(s: State, id: CallId)
    requires CallEnabled(s, id, Write) && !s.calls[id].cmd.Create?
    ensures MovesAlone(s, id, DoUpdate(s, id))
  {
  }

  lemma WriteMovesAlone(s: State, id: CallId)
    requires CallEnabled(s, id, Write)
    ensures s.calls[id].cmd.Create? ==> MovesAlone(s, id, DoInsertTrip(s, id))
    ensures !s.calls[id].cmd.Create? ==> MovesAlone(s, id, DoUpdate(s, id))
  {
    if s.calls[id].cmd.Create? { InsertTripMovesAlone(s, id); } else { UpdateMovesAlone(s, id); }
  }

  lemma InsertMovesAlone(s: State, id: CallId)
    requires CallEnabled(s, id, Insert)
    ensures s.calls[id].cmd.Publish? ==> MovesAlone(s, id, DoInsertEvent(s, id))
    ensures !s.calls[id].cmd.Publish? ==> MovesAlone(s, id, DoInsertHistory(s, id))
  {
  }

  lemma EndMovesAlone(s: State, id: CallId, reply: Reply, applied: bool)
    requires id in s.calls && (applied ==> s.calls[id].tripWrite.Some?)
    ensures MovesAlone(s, id, Finish(s, id, reply, applied))
  {
  }

  lemma SetMovesAlone(s: State, id: CallId, c: Call)
    requires id in s.calls ==>
      c.cmd == s.calls[id].cmd && (s.calls[id].pc != Beginning ==> c.now == s.calls[id].now)
    ensures MovesAlone(s, id, SetCall(s, id, c))
  {
  }

  /** The actions before the transaction block, and a failing statement in it. */
  lemma EntryMovesAlone(s: State, id: CallId, a: CallAction)
    requires CallEnabled(s, id, a) && (a.Invoke? || a.Check? || a.Validate? || a.Begin? || a.DbError?)
    ensures MovesAlone(s, id, CallNext(s, id, a))
  {
    match a
    case Invoke(cmd) => SetMovesAlone(s, id, Call(cmd, Checking, 0, None, None, [], None));
    case Check(outcome) =>
      SetMovesAlone(s, id, s.calls[id].(pc := Beginning));
      EndMovesAlone(s, id, Rejected(CheckError(outcome)), false);
    case Validate(_) =>
      SetMovesAlone(s, id, s.calls[id].(pc := Beginning));
      EndMovesAlone(s, id, Rejected(InvalidCommand()), false);
    case Begin(now) =>
      SetMovesAlone(s, id, s.calls[id].(now := now, pc := if s.calls[id].cmd.Create? then Writing else Reading));
    case DbError => SetMovesAlone(s, id, s.calls[id].(pc := Aborting(QueryError(s.calls[id].cmd, s.calls[id].pc))));
    case _ =>
  }

  lemma CallMovesAlone(s: State, id: CallId, a: CallAction)
    requires CallEnabled(s, id, a)
    ensures MovesAlone(s, id, CallNext(s, id, a))
  {
    match a
    case Read => LoadMovesAlone(s, id, a);
    case VerifyRow => LoadMovesAlone(s, id, a);
    case Write => WriteMovesAlone(s, id);
    case Insert => InsertMovesAlone(s, id);
    case BeginError => EndMovesAlone(s, id, Rejected(BeginErr(s.calls[id].cmd)), false);
    case Commit(result) =>
      EndMovesAlone(s, id, CallNext(s, id, a).calls[id].pc.reply, result != CommitErrorLost);
    case Rollback => EndMovesAlone(s, id, Rejected(BlockError(s.calls[id].cmd, s.calls[id].pc.err)), false);
    case Crash(applied) => EndMovesAlone(s, id, NoReply, applied);
    case _ => EntryMovesAlone(s, id, a);
  }

  lemma OnlyCheckLetsIn(s: State, id: CallId, a: CallAction)
    requires CallEnabled(s, id, a) && !LetIn(s, id) && LetIn(CallNext(s, id, a), id)
    requires !CallNext(s, id, a).calls[id].cmd.Create?
    ensures a == Check(Allowed)
  {
    assert a.Invoke? || a.Check? || a.Validate? || a.Crash?;
  }

  /** A publish or start call with an open transaction has had its own check allowed. */
  lemma LetInByCheck(states: seq<State>, run: seq<Action>, n: nat, id: CallId) returns (j: nat)
    requires Behaviour(states, run) && states[0].calls == map[] && n <= |run|
    requires LetIn(states[n], id) && !states[n].calls[id].cmd.Create?
    ensures j < n && run[j] == CallStep(id, Check(Allowed))
  {
    j := n - 1;
    while LetIn(states[j], id)
      invariant j < n && LetIn(states[j + 1], id) && !states[j + 1].calls[id].cmd.Create?
      decreases j
    {
      assert StepAt(states, run, j);
      if run[j].CallStep? { CallMovesAlone(states[j], run[j].call, run[j].call_action); }
      j := j - 1;
    }
    assert StepAt(states, run, j);
    if run[j].CallStep? {
      CallMovesAlone(states[j], run[j].call, run[j].call_action);
      OnlyCheckLetsIn(states[j], id, run[j].call_action);
    }
  }

  // ----- how an entry gets into the trace -----

  /** Action `n` puts entry `i` into the trace. */
  predicate Records(states: seq<State>, run: seq<Action>, n: nat, i: nat)
    requires |states| == |run| + 1
  {
    n < |run| && |states[n].trace| <= i < |states[n + 1].trace|
  }

  lemma WhenRecorded(states: seq<State>, run: seq<Action>, i: nat) returns (n: nat)
    requires Behaviour(states, run) && states[0].trace == [] && i < |states[|run|].trace|
    ensures Records(states, run, n, i)
  {
    n := |run| - 1;
    while i < |states[n].trace|
      invariant n < |run| && i < |states[n + 1].trace|
      decreases n
    {
      n := n - 1;
    }
  }

  /** Entry `e` is what action `a` of call `id`, its own, has found in its transaction; if a success, its commit. */
  predicate Authored(s: State, id: CallId, a: CallAction, e: Entry) {
    && e.call == id && LetIn(s, id) && s.calls[id].pc != Beginning
    && e.cmd == s.calls[id].cmd && e.now == s.calls[id].now
    && (e.verdict == Success ==> AppliesCommand(a) && s.calls[id].pc == Committing)
  }

  /** Action `a` of call `id` appends no entry but one about itself. */
  predicate RecordsOwn(s: State, id: CallId, a: CallAction, s': State) {
    && s.trace <= s'.trace
    && (|s'.trace| > |s.trace| ==>
          |s'.trace| == |s.trace| + 1 && Authored(s, id, a, s'.trace[|s.trace|]))
  }

  lemma LoadRecordsOwn(s: State, id: CallId, a: CallAction)
    requires CallEnabled(s, id, a) && (a.Read? || a.VerifyRow?)
    ensures RecordsOwn(s, id, a, CallNext(s, id, a))
  {
    assert CallNext(s, id, a) == if a.Read? then DoRead(s, id) else DoVerify(s, id);
  }

  lemma EndRecordsOwn(s: State, id: CallId, a: CallAction)
    requires CallEnabled(s, id, a) && !a.Read? && !a.VerifyRow? && !a.Write? && !a.Insert?
    ensures RecordsOwn(s, id, a, CallNext(s, id, a))
  {
  }

  /** An entry is written by a step of the call it is about, inside its transaction; a success, by an applied commit. */
  lemma RecordedByItself(s: State, id: CallId, a: CallAction)
    requires CallEnabled(s, id, a)
    ensures RecordsOwn(s, id, a, CallNext(s, id, a))
  {
    match a
    case Read => LoadRecordsOwn(s, id, a);
    case VerifyRow => LoadRecordsOwn(s, id, a);
    case Write => C.WriteIsPrivate(s, id);
    case Insert => C.InsertIsPrivate(s, id);
    case _ => EndRecordsOwn(s, id, a);
  }

  /** A publisher records nothing. */
  lemma OnlyCallsRecord(s: State, a: Action)
    requires Enabled(s, a)
    ensures a.PubStep? ==> Next(s, a).trace == s.trace
  {
    if a.PubStep? {
      assert Commands(PubNext(s, a.pub, a.pub_action)) == Commands(s);
    }
  }

  /** Every entry has its author. */
  lemma WhoRecorded(s0: State, states: seq<State>, run: seq<Action>, s: State, i: nat) returns (n: nat)
    requires Init(s0) && Links(states, run, s0, s) && i < |s.trace|
    ensures Records(states, run, n, i) && run[n].CallStep?
    ensures Authored(states[n], run[n].call, run[n].call_action, s.trace[i])
  {
    n := WhenRecorded(states, run, i);
    assert StepAt(states, run, n);
    TraceGrows(s0, states, run, n + 1);
    OnlyCallsRecord(states[n], run[n]);
    RecordedByItself(states[n], run[n].call, run[n].call_action);
  }

  /**
   * Entry `e`, the `i`-th, is recorded by action `n` of its
   * call, after an allowed check of this very call, action `j`.
   */
  ghost predicate CheckedThenRecorded(states: seq<State>, run: seq<Action>, e: Entry, i: nat, j: nat, n: nat)
    requires |states| == |run| + 1
  {
    && j < n && Records(states, run, n, i)
    && run[j] == CallStep(e.call, Check(Allowed))
    && run[n].CallStep? && run[n].call == e.call && (e.verdict == Success ==> AppliesCommand(run[n].call_action))
  }

  /** Whatever a publish or start call is found to be, it is found after the check of that same call was allowed. */
  lemma CheckPrecedesVerdict(s0: State, states: seq<State>, run: seq<Action>, s: State, i: nat)
    requires Init(s0) && Links(states, run, s0, s) && i < |s.trace| && !s.trace[i].cmd.Create?
    ensures exists j, n :: CheckedThenRecorded(states, run, s.trace[i], i, j, n)
  {
    var n := WhoRecorded(s0, states, run, s, i);
    var j := LetInByCheck(states, run, n, s.trace[i].call);
    assert CheckedThenRecorded(states, run, s.trace[i], i, j, n);
  }

  // ----- trips -----

  /** Trip `t` has been published or, for `started`, started. */
  predicate HasReached(s: State, t: Uuid, started: bool) {
    t in s.trips && if started then s.trips[t].status == Started else PastDraft(s.trips[t].status)
  }

  /** Entry `i` makes the trip reach the status, on behalf of its driver. */
  predicate Reaches(trace: seq<Entry>, i: int, t: Uuid, started: bool) {
    if started then Starts(trace, i, t) else Publishes(trace, i, t)
  }

  lemma ReachedByEntry(d: Tables, trace: seq<Entry>, t: Uuid, started: bool) returns (i: nat)
    requires EventsFromPublishers(d, trace) && StartsRecorded(d, trace) && t in d.trips
    requires if started then d.trips[t].status == Started else PastDraft(d.trips[t].status)
    ensures Reaches(trace, i, t, started) && trace[i].cmd.clientId == d.trips[t].driverId
  {
    if started {
      var k :| Starts(trace, k, t);
      i := k;
    } else {
      var k :| Publishes(trace, k, t);
      assert WrittenBy(d, trace[k], t);
      i := k;
    }
  }

  /** Before its entry, the trip has not reached the status. */
  lemma NotBefore(s0: State, states: seq<State>, run: seq<Action>, s: State, n: nat, i: nat, t: Uuid, started: bool)
    requires Init(s0) && Links(states, run, s0, s) && Records(states, run, n, i) && Reaches(s.trace, i, t, started)
    ensures !HasReached(states[n], t, started)
  {
    PartLeads(states, run, 0, n);
    CommittedDataIsSerial(s0, run[0..n], states[n]);
    PartLeads(states, run, 0, |run|);
    CommittedDataIsSerial(s0, run[0..|run|], s);
    TraceGrows(s0, states, run, n);
    if HasReached(states[n], t, started) {
      var k := ReachedByEntry(View(states[n]), states[n].trace, t, started);
      OncePerTrip(s.trace, states[n].trace, k, i, t, started);
    }
  }

  /** Right after its entry, the trip has reached the status. */
  lemma RightAfter(s0: State, states: seq<State>, run: seq<Action>, s: State, n: nat, i: nat, t: Uuid, started: bool)
    requires Init(s0) && Links(states, run, s0, s) && Records(states, run, n, i) && Reaches(s.trace, i, t, started)
    ensures HasReached(states[n + 1], t, started)
  {
    PartLeads(states, run, 0, n + 1);
    CommittedDataIsSerial(s0, run[0..n + 1], states[n + 1]);
    TraceGrows(s0, states, run, n + 1);
    assert Reaches(states[n + 1].trace, i, t, started);
    if !started { assert WrittenBy(View(states[n + 1]), states[n + 1].trace[i], t); }
  }

  lemma OncePerTrip(trace: seq<Entry>, earlier: seq<Entry>, k: nat, i: nat, t: Uuid, started: bool)
    requires EachSucceedsOnce(trace) && earlier <= trace && |earlier| <= i
    requires Reaches(trace, i, t, started)
    ensures !Reaches(earlier, k, t, started)
  {
    assert Reaches(earlier, k, t, started) ==> Reaches(trace, k, t, started);
  }

  /**
   * The trip has reached the status through entry `i`, of its driver's
   * call, which action `j` allowed and action `n` made effective.
   */
  ghost predicate AllowedThenEffective(states: seq<State>, run: seq<Action>, trace: seq<Entry>, t: Uuid, driver: Uuid,
                                       started: bool,
                                       i: nat, j: nat, n: nat)
    requires |states| == |run| + 1
  {
    && Reaches(trace, i, t, started) && CheckedThenRecorded(states, run, trace[i], i, j, n)
    && NeededPermission(trace[i].cmd) == Permission(driver, if started then TripStart else TripCreation)
    && !HasReached(states[n], t, started) && HasReached(states[n + 1], t, started)
  }

  /**
   * No trip is published or started but by a call of its own driver whose own check was allowed before its commit, and
   * until that commit the trip was not published or started.
   */
  lemma PermissionPrecedesEffect(s0: State, states: seq<State>, run: seq<Action>, s: State, t: Uuid, started: bool)
    requires Init(s0) && Links(states, run, s0, s) && HasReached(s, t, started)
    ensures exists i, j, n :: AllowedThenEffective(states, run, s.trace, t, s.trips[t].driverId, started, i, j, n)
  {
    PartLeads(states, run, 0, |run|);
    CommittedDataIsSerial(s0, run[0..|run|], s);
    var i := ReachedByEntry(View(s), s.trace, t, started);
    CheckPrecedesVerdict(s0, states, run, s, i);
    var j, n :| CheckedThenRecorded(states, run, s.trace[i], i, j, n);
    NotBefore(s0, states, run, s, n, i, t, started);
    RightAfter(s0, states, run, s, n, i, t, started);
    assert AllowedThenEffective(states, run, s.trace, t, s.trips[t].driverId, started, i, j, n);
  }

  /** A denied, failed or rejected request takes no lock, writes nothing, and is over. */
  lemma DeniedCheckHasNoEffect(s0: State, run: seq<Action>, s: State, id: CallId, outcome: CheckOutcome)
    requires Init(s0) && Leads(s0, run, s) && outcome != Allowed && CallEnabled(s, id, Check(outcome))
    ensures var s' := CallNext(s, id, Check(outcome));
      && s' == s.(calls := s'.calls) && s'.calls[id].pc.Finished? && !s'.calls[id].pc.applied
      && forall a :: !CallEnabled(s', id, a)
  {
    ReachableCommands(s0, run, s);
    NoLocksYet(s, id);
    TurnedAwayIsOver(s, id, outcome);
  }

  lemma TurnedAwayIsOver(s: State, id: CallId, outcome: CheckOutcome)
    requires outcome != Allowed && CallEnabled(s, id, Check(outcome))
    requires Released(s.tripLocks, id) == s.tripLocks && Released(s.keyLocks, id) == s.keyLocks
    ensures var s' := CallNext(s, id, Check(outcome));
      && s' == s.(calls := s'.calls) && s'.calls[id].pc.Finished? && !s'.calls[id].pc.applied
      && forall a :: !CallEnabled(s', id, a)
  {
    assert CallNext(s, id, Check(outcome)) == Finish(s, id, Rejected(CheckError(outcome)), false);
  }

  lemma NoLocksYet(s: State, id: CallId)
    requires C.TripLocksOwned(s.calls, s.tripLocks) && C.KeyLocksOwned(s.calls, s.keyLocks)
    requires id in s.calls && s.calls[id].pc == Checking
    ensures Released(s.tripLocks, id) == s.tripLocks && Released(s.keyLocks, id) == s.keyLocks
  {
  }
}
