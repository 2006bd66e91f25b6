/** Nobody is stuck: every call can be brought to its end without an error of the database and without a crash. */
module Completion {
  import opened Domain
  import opened Errors
  import opened Serial
  import opened Protocol
  import opened Database
  import opened CallSteps
  import opened CallRuns
  import opened Waiting
  import C = CommandProof
  import S = System
  import T = Theorems

  /** No statement, begin or commit fails, and nobody crashes. */
  predicate Flawless(a: CallAction) {
    !a.BeginError? && !a.DbError? && !a.Crash? && (a.Commit? ==> a.result == CommitOk)
  }

  ghost predicate FlawlessRun(run: seq<Action>) {
    forall a :: a in run ==> a.CallStep? && Flawless(a.call_action)
  }

  /** The next action of a call to which nothing untoward happens. */
  function NextAction(c: Call): CallAction
    requires !c.pc.Finished?
  {
    match c.pc
    case Checking => if c.cmd.Create? then Validate(0) else Check(Allowed)
    case Beginning => Begin(0)
    case Reading => Read
    case Verifying => VerifyRow
    case Writing => Write
    case Inserting => Insert
    case Committing => Commit(CommitOk)
    case Aborting(_) => Rollback
  }

  /** How many such actions it takes to the end, at most. */
  function Distance(c: Call): nat {
    match c.pc
    case Checking => 7
    case Beginning => 6
    case Reading => 5
    case Verifying => 4
    case Writing => if c.cmd.Create? then 5 else 3
    case Inserting => 2
    case Committing => 1
    case Aborting(_) => 1
    case Finished(_, _) => 0
  }

  // ----- one action -----

  /** A call that does not wait can go on. */
  lemma CanGoOn(g: State, id: CallId)
    requires Arises(g) && id in g.calls && !g.calls[id].pc.Finished? && forall holder :: !WaitsFor(g, id, holder)
    ensures CallEnabled(g, id, NextAction(g.calls[id]))
  {
    ArisesInOrder(g);
    assert C.CallOk(g.calls[id], id, g.trips, g.tripLocks, g.keyLocks, g.outbox.Keys);
    if g.calls[id].pc == Inserting && g.calls[id].cmd.Publish? {
      var s0, past :| Init(s0) && Leads(s0, past, g);
      T.InsertNeverConflicts(s0, past, g, id);
    } else {
      NotHeldByOther(g, id);
    }
  }

  lemma NotHeldByOther(g: State, id: CallId)
    requires id in g.calls && forall holder :: !WaitsFor(g, id, holder)
    ensures var key := g.calls[id].cmd.Key(); key in g.tripLocks ==> !WaitsFor(g, id, g.tripLocks[key])
  {
  }

  /** In `g'`, call `id` has come nearer to its end than `c`; once past its locking statement, it stays past it. */
  ghost predicate Nearer(c: Call, id: CallId, g': State) {
    && id in g'.calls && Distance(g'.calls[id]) < Distance(c)
    && (C.MayHoldKey(c) || c.pc == Reading || c.pc == Writing ==>
          C.MayHoldKey(g'.calls[id]) || g'.calls[id].pc.Finished?)
  }

  lemma ReadNearer(g: State, id: CallId)
    requires CallEnabled(g, id, Read)
    ensures Nearer(g.calls[id], id, DoRead(g, id))
  {
  }

  lemma VerifyNearer(g: State, id: CallId)
    requires CallEnabled(g, id, VerifyRow)
    ensures Nearer(g.calls[id], id, DoVerify(g, id))
  {
  }

  lemma InsertTripNearer(g: State, id: CallId)
    requires CallEnabled(g, id, Write) && g.calls[id].cmd.Create?
    ensures Nearer(g.calls[id], id, DoInsertTrip(g, id))
  {
    S.InsertTripEffect(g, id);
  }

  lemma UpdateNearer(g: State, id: CallId)
    requires CallEnabled(g, id, Write) && !g.calls[id].cmd.Create?
    ensures Nearer(g.calls[id], id, DoUpdate(g, id))
  {
  }

  lemma WriteNearer(g: State, id: CallId)
    requires CallEnabled(g, id, Write)
    ensures g.calls[id].cmd.Create? ==> Nearer(g.calls[id], id, DoInsertTrip(g, id))
    ensures !g.calls[id].cmd.Create? ==> Nearer(g.calls[id], id, DoUpdate(g, id))
  {
    if g.calls[id].cmd.Create? { InsertTripNearer(g, id); } else { UpdateNearer(g, id); }
  }

  lemma InsertNearer(g: State, id: CallId)
    requires CallEnabled(g, id, Insert)
    ensures g.calls[id].cmd.Publish? ==> Nearer(g.calls[id], id, DoInsertEvent(g, id))
    ensures !g.calls[id].cmd.Publish? ==> Nearer(g.calls[id], id, DoInsertHistory(g, id))
  {
  }

  lemma EndNearer(g: State, id: CallId, reply: Reply, applied: bool)
    requires id in g.calls && !g.calls[id].pc.Finished? && (applied ==> g.calls[id].tripWrite.Some?)
    ensures Nearer(g.calls[id], id, Finish(g, id, reply, applied))
  {
  }

  /** The check, the validation or the begin of the transaction. */
  lemma EntryNearer(g: State, id: CallId, a: CallAction)
    requires CallEnabled(g, id, a) && (a == Check(Allowed) || a.Validate? || a.Begin?)
    ensures Nearer(g.calls[id], id, CallNext(g, id, a))
  {
  }

  /** Every such action brings the call nearer to its end. */
  lemma ComesNearer(g: State, id: CallId)
    requires id in g.calls && !g.calls[id].pc.Finished? && CallEnabled(g, id, NextAction(g.calls[id]))
    ensures Nearer(g.calls[id], id, CallNext(g, id, NextAction(g.calls[id])))
  {
    var a := NextAction(g.calls[id]);
    match a
    case Read => ReadNearer(g, id);
    case VerifyRow => VerifyNearer(g, id);
    case Write => WriteNearer(g, id);
    case Insert => InsertNearer(g, id);
    case Commit(_) => EndNearer(g, id, Accepted, true);
    case Rollback => EndNearer(g, id, Rejected(BlockError(g.calls[id].cmd, g.calls[id].pc.err)), false);
    case _ => EntryNearer(g, id, a);
  }

  /** No row is locked in `after` that was not locked by the same call in `before`. */
  ghost predicate NoNewLock(before: map<Uuid, CallId>, after: map<Uuid, CallId>) {
    forall k :: k in after ==> k in before && after[k] == before[k]
  }

  lemma WriteLocksNothing(g: State, id: CallId)
    requires CallEnabled(g, id, Write) && !g.calls[id].cmd.Create?
    ensures NoNewLock(g.tripLocks, DoUpdate(g, id).tripLocks)
  {
  }

  lemma InsertLocksNothing(g: State, id: CallId)
    requires CallEnabled(g, id, Insert)
    ensures g.calls[id].cmd.Publish? ==> NoNewLock(g.tripLocks, DoInsertEvent(g, id).tripLocks)
    ensures !g.calls[id].cmd.Publish? ==> NoNewLock(g.tripLocks, DoInsertHistory(g, id).tripLocks)
  {
  }

  lemma VerifyLocksNothing(g: State, id: CallId)
    requires CallEnabled(g, id, VerifyRow)
    ensures NoNewLock(g.tripLocks, DoVerify(g, id).tripLocks)
  {
  }

  lemma EndLocksNothing(g: State, id: CallId, reply: Reply, applied: bool)
    requires id in g.calls && (applied ==> g.calls[id].tripWrite.Some?)
    ensures NoNewLock(g.tripLocks, Finish(g, id, reply, applied).tripLocks)
  {
  }

  lemma LocksNothing(g: State, id: CallId)
    requires id in g.calls && C.MayHoldKey(g.calls[id]) && CallEnabled(g, id, NextAction(g.calls[id]))
    ensures NoNewLock(g.tripLocks, CallNext(g, id, NextAction(g.calls[id])).tripLocks)
  {
    var c := g.calls[id];
    if c.pc == Verifying {
      VerifyLocksNothing(g, id);
    } else if c.pc == Writing {
      WriteLocksNothing(g, id);
    } else if c.pc == Inserting {
      InsertLocksNothing(g, id);
    } else if c.pc == Committing {
      EndLocksNothing(g, id, Accepted, true);
    } else {
      EndLocksNothing(g, id, Rejected(BlockError(c.cmd, c.pc.err)), false);
    }
  }

  /** A call that is past its locking statement waits for nobody. */
  lemma PastLockingNeverWaits(g: State, id: CallId)
    requires Arises(g) && id in g.calls && C.MayHoldKey(g.calls[id])
    ensures forall holder :: !WaitsFor(g, id, holder)
  {
    ArisesInOrder(g);
    assert C.CallOk(g.calls[id], id, g.trips, g.tripLocks, g.keyLocks, g.outbox.Keys);
    forall holder ensures !WaitsFor(g, id, holder) {
      if WaitsFor(g, id, holder) { WaitsForTripLock(g, id, holder); }
    }
  }

  /** One action of a call that does not wait. */
  lemma GoesOn(g: State, id: CallId) returns (g': State, step: seq<Action>)
    requires Arises(g) && id in g.calls && !g.calls[id].pc.Finished? && forall holder :: !WaitsFor(g, id, holder)
    ensures Made(g, id, step, g') && FlawlessRun(step) && Arises(g') && Nearer(g.calls[id], id, g')
    ensures C.MayHoldKey(g.calls[id]) ==> NoNewLock(g.tripLocks, g'.tripLocks)
  {
    CanGoOn(g, id);
    var a := NextAction(g.calls[id]);
    g', step := CallNext(g, id, a), [CallStep(id, a)];
    MadeOne(g, id, a);
    ArisesOn(g, step, g');
    ComesNearer(g, id);
    if C.MayHoldKey(g.calls[id]) { LocksNothing(g, id); }
  }

  // ----- to the end -----

  /** Call `id` has finished on its own, without a flaw, and the locks that are left were there before. */
  ghost predicate FinishedAlone(g: State, id: CallId, run: seq<Action>, g': State) {
    && Made(g, id, run, g') && FlawlessRun(run) && Arises(g')
    && id in g'.calls && g'.calls[id].pc.Finished? && NoNewLock(g.tripLocks, g'.tripLocks)
  }

  /** Whoever holds a lock can finish on its own. */
  lemma {:induction false} HolderFinishes(g: State, id: CallId) returns (g': State, run: seq<Action>)
    requires Arises(g) && id in g.calls && C.MayHoldKey(g.calls[id])
    ensures FinishedAlone(g, id, run, g')
    decreases Distance(g.calls[id])
  {
    PastLockingNeverWaits(g, id);
    g', run := GoesOn(g, id);
    if !g'.calls[id].pc.Finished? {
      var mid, rest := g', [];
      g', rest := HolderFinishes(mid, id);
      MadeOn(g, id, run, mid, rest, g');
      run := run + rest;
    }
  }

  /** When the holder has finished, the call that waited for it is where it was, and waits for nobody. */
  lemma WaitEnds(g: State, id: CallId, holder: CallId) returns (g': State, run: seq<Action>)
    requires Arises(g) && WaitsFor(g, id, holder)
    ensures FinishedAlone(g, holder, run, g') && holder != id
    ensures id in g'.calls && g'.calls[id] == g.calls[id] && forall other :: !WaitsFor(g', id, other)
    ensures g.calls[id].cmd.Key() !in g'.tripLocks
  {
    ArisesInOrder(g);
    WaitsForTripLock(g, id, holder);
    g', run := HolderFinishes(g, holder);
    LeadsIsFinal(g, run, g');
    OthersLeave(g, run, id);
    ArisesInOrder(g');
    LockIsGone(g, id, holder, g');
    forall other ensures !WaitsFor(g', id, other) {
      if WaitsFor(g', id, other) { WaitsForTripLock(g', id, other); }
    }
  }

  lemma LockIsGone(g: State, id: CallId, holder: CallId, g': State)
    requires C.CommandInv(g) && WaitsFor(g, id, holder)
    requires C.TripLocksOwned(g'.calls, g'.tripLocks) && NoNewLock(g.tripLocks, g'.tripLocks)
    requires holder in g'.calls && g'.calls[holder].pc.Finished?
    ensures g.calls[id].cmd.Key() !in g'.tripLocks
  {
    WaitsForTripLock(g, id, holder);
    var key := g.calls[id].cmd.Key();
    assert key in g.tripLocks && g.tripLocks[key] == holder;
  }

  /**
   * From every reachable state, every call can be brought to its end by actions of its own and of at most one other
   * call, the one it has to wait for, without an error of the database and without a crash.
   */
  lemma {:induction false} EveryCallCanFinish(g: State, id: CallId)
    returns (g': State, run: seq<Action>, holder: CallId)
    requires Arises(g) && id in g.calls
    ensures Leads(g, run, g') && FlawlessRun(run) && id in g'.calls && g'.calls[id].pc.Finished?
    ensures forall a :: a in run ==> a.call == id || a.call == holder
    decreases Distance(g.calls[id])
  {
    g', run, holder := g, [], id;
    LeadsNowhere(g);
    if g.calls[id].pc.Finished? { return; }
    if holder' :| WaitsFor(g, id, holder') {
      holder := holder';
      g', run := WaitEnds(g, id, holder);
    }
    var before, step := g', [];
    g', step := GoesOn(before, id);
    LeadsOn(g, run, before, step, g');
    run := run + step;
    var mid, rest := g', [];
    LeadsNowhere(mid);
    if C.MayHoldKey(mid.calls[id]) {
      g', rest := HolderFinishes(mid, id);
    } else if !mid.calls[id].pc.Finished? {
      g', rest, holder := EveryCallCanFinish(mid, id);
    }
    LeadsOn(g, run, mid, rest, g');
    run := run + rest;
  }

  /** No wait need last: whoever is waited for can finish, and the row is free then. */
  lemma WaitCanEnd(g: State, id: CallId, cmd: Command) returns (pause: Pause)
    requires Arises(g) && JustBegun(g, id, cmd)
    ensures Meanwhile(g, id, cmd, false, pause) && FlawlessRun(pause.others)
    ensures Blocked(WorldOf(g), id, cmd) ==> FinishedAlone(g, g.tripLocks[cmd.Key()], pause.others, pause.end)
  {
    pause := Pause([], g);
    if Blocked(WorldOf(g), id, cmd) {
      var holder := g.tripLocks[cmd.Key()];
      assert WaitsFor(g, id, holder);
      var end, others := WaitEnds(g, id, holder);
      pause := Pause(others, end);
    }
  }
}
