/** Both halves of the system together: the invariant of every reachable state. */
module System {
  import opened Domain
  import opened Errors
  import opened Serial
  import opened Protocol
  import C = CommandProof
  import P = PublisherProof

  // ----- what publishers do to commands, and commands to publishers -----

  /** No publisher step touches a row, except that a commit marks rows that were pending and held by it. */
  ghost predicate OutboxMarked(before: Outbox, after: Outbox) {
    && after.Keys == before.Keys && Heads(after) == Heads(before)
    && (forall id ::
        id in before ==> after[id] == before[id] || (before[id].status == Pending && after[id].status != Failed))
  }

  lemma EndTxMarks(s: State, p: PubId, applied: bool)
    requires P.PubsOk(s) && p in s.pubs && (applied ==> AllMarked(s.pubs[p]))
    ensures OutboxMarked(s.outbox, EndTx(s, p, applied).outbox)
  {
    if applied {
      P.CommitEffect(s, p);
      forall id | id in s.outbox && id in s.pubs[p].writes
        ensures s.outbox[id].status == Pending && s.pubs[p].writes[id].status != Failed
      {
        P.MarksSeen(s.pubs[p], p, s.outbox, s.eventLocks, id);
      }
    }
  }

  lemma PublisherMarks(s: State, p: PubId, a: PubAction)
    requires P.PubsOk(s) && PubEnabled(s, p, a)
    ensures OutboxMarked(s.outbox, PubNext(s, p, a).outbox)
  {
    if AppliesBatch(a) { EndTxMarks(s, p, true); }
  }

  lemma PublisherKeepsCommands(s: State, p: PubId, a: PubAction)
    requires C.CommandInv(s) && P.PubsOk(s) && PubEnabled(s, p, a)
    ensures C.CommandInv(PubNext(s, p, a)) && View(PubNext(s, p, a)) == View(s)
  {
    PublisherMarks(s, p, a);
  }

  /** The only thing a command does to the publishers' world is to insert one fresh pending row. */
  ghost predicate CommandFrame(s: State, s': State) {
    && s'.pubs == s.pubs && s'.eventLocks == s.eventLocks && s'.log == s.log && s'.acks == s.acks && s'.lost == s.lost
    && (s'.outbox == s.outbox || exists id, row :: FreshInsert(s.outbox, s'.outbox, id, row))
  }

  ghost predicate FreshInsert(before: Outbox, after: Outbox, id: Uuid, row: OutboxRow) {
    id !in before && after == before[id := row] && row == OutboxRow(row.head, Pending, 0, None, None)
  }

  lemma FinishFrame(s: State, id: CallId, reply: Reply, applied: bool)
    requires C.CommandInv(s) && id in s.calls && (applied ==> s.calls[id].pc == Committing)
    ensures CommandFrame(s, Finish(s, id, reply, applied))
  {
    var c := s.calls[id];
    assert C.CallOk(c, id, s.trips, s.tripLocks, s.keyLocks, s.outbox.Keys);
    if applied && c.eventWrite.Some? {
      assert FreshInsert(s.outbox, Finish(s, id, reply, applied).outbox, PublishedEventId(c.cmd.Key()),
                         c.eventWrite.value);
    }
  }

  lemma CommandFrameHolds(s: State, id: CallId, a: CallAction)
    requires C.CommandInv(s) && CallEnabled(s, id, a)
    ensures CommandFrame(s, CallNext(s, id, a))
  {
    if AppliesCommand(a) { FinishFrame(s, id, CallNext(s, id, a).calls[id].pc.reply, true); }
  }

  lemma CommandsKeepPublishers(s: State, id: CallId, a: CallAction)
    requires C.CommandInv(s) && P.PublisherInv(s) && CallEnabled(s, id, a)
    ensures P.PublisherInv(CallNext(s, id, a))
  {
    CommandFrameHolds(s, id, a);
    FrameKeepsPublishers(s, CallNext(s, id, a));
  }

  lemma FrameKeepsPublishers(s: State, s': State)
    requires P.PublisherInv(s) && CommandFrame(s, s')
    ensures P.PublisherInv(s')
  {
    FrameKeepsPubs(s, s');
    FrameKeepsLog(s, s');
  }

  lemma FrameKeepsPubs(s: State, s': State)
    requires P.PubsOk(s) && CommandFrame(s, s')
    ensures P.PubsOk(s')
  {
    forall p | p in s'.pubs ensures P.PubOk(s'.pubs[p], p, s'.outbox, s'.eventLocks, s'.log) {
      P.OtherPub(s.pubs[p], p, s.outbox, s.eventLocks, s.log, s'.outbox, s'.eventLocks, s'.log);
    }
  }

  lemma FrameKeepsLog(s: State, s': State)
    requires P.SentDelivered(s.outbox, s.log) && P.LogFromOutbox(s.outbox, s.log) && P.AcksAccounted(s)
    requires CommandFrame(s, s')
    ensures P.SentDelivered(s'.outbox, s'.log) && P.LogFromOutbox(s'.outbox, s'.log) && P.AcksAccounted(s')
  {
    assert forall id :: P.IsSent(s'.outbox, id) == P.IsSent(s.outbox, id);
    P.SameAccount(s, s');
  }

  // ----- how calls end -----

  /** Entry `i` of the trace belongs to call `id`. */
  predicate Recorded(trace: seq<Entry>, i: int, id: CallId, verdict: Verdict) {
    0 <= i < |trace| && trace[i].call == id && trace[i].verdict == verdict
  }

  /** The statements of a transaction block that may fail. */
  predicate IsStatement(pc: CallPc) {
    pc == Reading || pc == Writing || pc == Inserting
  }

  /** The verdicts, other than success, that the check of the command's row can give. */
  predicate Refuses(cmd: Command, v: Verdict) {
    !cmd.Create? && (v == NotFound || v == NotDriver || v == WrongStatus || (cmd.Publish? && v == AlreadyPublished))
  }

  /** Why the transaction block failed: the serial machine said so, or some statement did. */
  ghost predicate AbortCause(cmd: Command, id: CallId, err: Error, trace: seq<Entry>) {
    || (exists pc :: IsStatement(pc) && err == QueryError(cmd, pc))
    || (exists i, v :: Recorded(trace, i, id, v) && v != Success && err == VerdictError(cmd, v))
  }

  /** The database failed before the commit, at it, or in a statement of the block. */
  ghost predicate DatabaseFailure(cmd: Command, err: Error) {
    || err == BeginErr(cmd) || err == CommitError(cmd)
    || (exists pc :: IsStatement(pc) && err == BlockError(cmd, QueryError(cmd, pc)))
  }

  /** Why a call that changed nothing was rejected. */
  ghost predicate Rejection(cmd: Command, id: CallId, err: Error, trace: seq<Entry>) {
    || DatabaseFailure(cmd, err)
    || (cmd.Create? && err == InvalidCommand())
    || (!cmd.Create? && exists o :: o != Allowed && err == CheckError(o))
    || (exists i, v :: Recorded(trace, i, id, v) && v != Success && err == BlockError(cmd, VerdictError(cmd, v)))
  }

  ghost predicate OutcomeOk(c: Call, id: CallId, trace: seq<Entry>) {
    match c.pc
    case Aborting(err) => AbortCause(c.cmd, id, err, trace)
    case Finished(reply, applied) =>
      if applied then exists i :: Recorded(trace, i, id, Success)
      else !reply.Accepted? && (reply.Rejected? ==> Rejection(c.cmd, id, reply.err, trace))
    case _ => true
  }

  /** Each call has at most one entry, with its own command, and ends as its entry says. */
  ghost predicate TraceOfCalls(s: State) {
    && (forall i :: 0 <= i < |s.trace| ==>
          && s.trace[i].call in s.calls && s.trace[i].cmd == s.calls[s.trace[i].call].cmd
          && Settled(s.calls[s.trace[i].call], s.trace[i].verdict))
    && (forall i, j :: 0 <= i < j < |s.trace| ==> s.trace[i].call != s.trace[j].call)
  }

  /** The one way in which a call with verdict `v` goes on from there. */
  predicate Settled(c: Call, v: Verdict) {
    if v == Success then
      c.pc.Finished? && c.pc.applied && c.pc.reply in {Accepted, NoReply, Rejected(CommitError(c.cmd))}
    else
      && Refuses(c.cmd, v)
      && (|| c.pc == Aborting(VerdictError(c.cmd, v))
          || c.pc == Finished(NoReply, false)
          || c.pc == Finished(Rejected(BlockError(c.cmd, VerdictError(c.cmd, v))), false))
  }

  ghost predicate OutcomesOk(s: State) {
    forall id :: id in s.calls ==> OutcomeOk(s.calls[id], id, s.trace)
  }

  /** Call `id` moves on, and nothing is recorded in the trace. */
  ghost predicate QuietMove(s: State, id: CallId, s': State) {
    && s'.trace == s.trace && id in s'.calls && s'.calls == s.calls[id := s'.calls[id]]
    && var c' := s'.calls[id];
       && OutcomeOk(c', id, s.trace) && (c'.pc.Finished? ==> !c'.pc.applied)
       && if id !in s.calls then c'.pc == Checking else
          && c'.cmd == s.calls[id].cmd && !s.calls[id].pc.Finished? && c'.pc != Checking
          && (s.calls[id].pc.Aborting? ==> RolledBack(c', s.calls[id].pc.err))
  }

  predicate RolledBack(c: Call, err: Error) {
    c.pc == Finished(NoReply, false) || c.pc == Finished(Rejected(BlockError(c.cmd, err)), false)
  }

  /** Call `id` has its verdict, which goes into the trace. */
  ghost predicate RecordMove(s: State, id: CallId, s': State, v: Verdict) {
    && id in s.calls && (s.calls[id].pc == Reading || s.calls[id].pc == Verifying || s.calls[id].pc == Committing)
    && s'.trace == s.trace + [Entry(id, s.calls[id].cmd, s.calls[id].now, v)]
    && id in s'.calls && s'.calls == s.calls[id := s'.calls[id]]
    && var c' := s'.calls[id];
       c'.cmd == s.calls[id].cmd && Settled(c', v) && (v != Success ==> c'.pc.Aborting?)
  }

  ghost predicate RunInv(s: State) {
    TraceOfCalls(s) && OutcomesOk(s)
  }

  lemma QuietMoveKeeps(s: State, id: CallId, s': State)
    requires RunInv(s) && QuietMove(s, id, s')
    ensures RunInv(s')
  {
  }

  lemma RecordMoveKeeps(s: State, id: CallId, s': State, v: Verdict)
    requires RunInv(s) && RecordMove(s, id, s', v)
    ensures RunInv(s')
  {
    RecordOutcomes(s, id, s', v);
  }

  lemma RecordOutcomes(s: State, id: CallId, s': State, v: Verdict)
    requires OutcomesOk(s) && RecordMove(s, id, s', v)
    ensures OutcomesOk(s')
  {
    assert Recorded(s'.trace, |s.trace|, id, v);
    forall o | o in s.calls && o != id ensures OutcomeOk(s'.calls[o], o, s'.trace) {
      LongerTrace(s.calls[o], o, s.trace, Entry(id, s.calls[id].cmd, s.calls[id].now, v));
    }
  }

  lemma LongerTrace(c: Call, id: CallId, trace: seq<Entry>, e: Entry)
    requires OutcomeOk(c, id, trace)
    ensures OutcomeOk(c, id, trace + [e])
  {
    assert forall i, v :: Recorded(trace, i, id, v) ==> Recorded(trace + [e], i, id, v);
  }

  // ----- every command action is such a move -----

  lemma FinishUnapplied(s: State, id: CallId, reply: Reply)
    requires id in s.calls && !s.calls[id].pc.Finished? && !s.calls[id].pc.Aborting? && !reply.Accepted?
    requires reply.Rejected? ==> Rejection(s.calls[id].cmd, id, reply.err, s.trace)
    ensures QuietMove(s, id, Finish(s, id, reply, false))
  {
  }

  lemma FinishApplied(s: State, id: CallId, reply: Reply)
    requires id in s.calls && s.calls[id].pc == Committing && s.calls[id].tripWrite.Some?
    requires reply in {Accepted, NoReply, Rejected(CommitError(s.calls[id].cmd))}
    ensures RecordMove(s, id, Finish(s, id, reply, true), Success)
  {
  }

  lemma RollbackMove(s: State, id: CallId)
    requires OutcomesOk(s) && CallEnabled(s, id, Rollback)
    ensures QuietMove(s, id, Finish(s, id, Rejected(BlockError(s.calls[id].cmd, s.calls[id].pc.err)), false))
  {
    assert OutcomeOk(s.calls[id], id, s.trace);
  }

  lemma CommitMove(s: State, id: CallId, reply: Reply, applied: bool)
    requires id in s.calls && s.calls[id].pc == Committing && s.calls[id].tripWrite.Some?
    requires reply.Rejected? ==> reply.err == CommitError(s.calls[id].cmd)
    requires reply.Accepted? ==> applied
    ensures if applied then RecordMove(s, id, Finish(s, id, reply, true), Success)
      else QuietMove(s, id, Finish(s, id, reply, false))
  {
    if applied { FinishApplied(s, id, reply); } else { FinishUnapplied(s, id, reply); }
  }

  lemma CrashMove(s: State, id: CallId, applied: bool)
    requires CallEnabled(s, id, Crash(applied))
    ensures if applied then RecordMove(s, id, Finish(s, id, NoReply, true), Success)
      else QuietMove(s, id, Finish(s, id, NoReply, false))
  {
    if applied { FinishApplied(s, id, NoReply); }
  }

  lemma CheckMove(s: State, id: CallId, outcome: CheckOutcome)
    requires CallEnabled(s, id, Check(outcome))
    ensures QuietMove(s, id, DoCheck(s, id, outcome))
  {
    if outcome != Allowed { FinishUnapplied(s, id, Rejected(CheckError(outcome))); }
  }

  lemma ValidateMove(s: State, id: CallId, clock: Time)
    requires CallEnabled(s, id, Validate(clock))
    ensures QuietMove(s, id, DoValidate(s, id, clock))
  {
    if !ValidCreate(s.calls[id].cmd, clock) { FinishUnapplied(s, id, Rejected(InvalidCommand())); }
  }

  lemma BeginErrorMove(s: State, id: CallId)
    requires CallEnabled(s, id, BeginError)
    ensures QuietMove(s, id, Finish(s, id, Rejected(BeginErr(s.calls[id].cmd)), false))
  {
    FinishUnapplied(s, id, Rejected(BeginErr(s.calls[id].cmd)));
  }

  lemma ReadMove(s: State, id: CallId)
    requires C.CallsOk(s) && CallEnabled(s, id, Read)
    ensures QuietMove(s, id, DoRead(s, id)) || RecordMove(s, id, DoRead(s, id), NotFound)
  {
    assert C.CallOk(s.calls[id], id, s.trips, s.tripLocks, s.keyLocks, s.outbox.Keys);
  }

  lemma VerifyMove(s: State, id: CallId)
    requires CallEnabled(s, id, VerifyRow)
    ensures QuietMove(s, id, DoVerify(s, id)) || exists v :: RecordMove(s, id, DoVerify(s, id), v)
  {
    var verdict := Verify(s.calls[id].cmd, s.calls[id].loaded.value);
    assert verdict != Success ==> RecordMove(s, id, DoVerify(s, id), verdict);
  }

  /** The trip insert moves its call on, or fails it, and records nothing. */
  lemma InsertTripEffect(s: State, id: CallId)
    requires CallEnabled(s, id, Write) && s.calls[id].cmd.Create?
    ensures var s', c := DoInsertTrip(s, id), s.calls[id];
      && s'.trace == s.trace && id in s'.calls && s'.calls == s.calls[id := s'.calls[id]]
      && s'.calls[id].cmd == c.cmd
      && (s'.calls[id].pc == Inserting || s'.calls[id].pc == Aborting(QueryError(c.cmd, Writing)))
  {
  }

  lemma InsertTripMove(s: State, id: CallId)
    requires CallEnabled(s, id, Write) && s.calls[id].cmd.Create?
    ensures QuietMove(s, id, DoInsertTrip(s, id))
  {
    InsertTripEffect(s, id);
    assert IsStatement(Writing);
    assert OutcomeOk(DoInsertTrip(s, id).calls[id], id, s.trace);
  }

  /** The row of a call that holds its lock cannot be missing. */
  lemma UpdateMove(s: State, id: CallId)
    requires C.CallsOk(s) && CallEnabled(s, id, Write) && !s.calls[id].cmd.Create?
    ensures QuietMove(s, id, DoUpdate(s, id))
  {
    assert C.CallOk(s.calls[id], id, s.trips, s.tripLocks, s.keyLocks, s.outbox.Keys);
  }

  lemma WriteMove(s: State, id: CallId)
    requires C.CallsOk(s) && CallEnabled(s, id, Write)
    ensures s.calls[id].cmd.Create? ==> QuietMove(s, id, DoInsertTrip(s, id))
    ensures !s.calls[id].cmd.Create? ==> QuietMove(s, id, DoUpdate(s, id))
  {
    if s.calls[id].cmd.Create? { InsertTripMove(s, id); } else { UpdateMove(s, id); }
  }

  /** The event insert moves its call to the commit, and records nothing. */
  lemma InsertEventEffect(s: State, id: CallId)
    requires CallEnabled(s, id, Insert) && s.calls[id].cmd.Publish?
    ensures var s' := DoInsertEvent(s, id);
      && s'.trace == s.trace && id in s'.calls && s'.calls == s.calls[id := s'.calls[id]]
      && s'.calls[id].cmd == s.calls[id].cmd && s'.calls[id].pc == Committing
  {
  }

  lemma InsertEventMove(s: State, id: CallId)
    requires CallEnabled(s, id, Insert) && s.calls[id].cmd.Publish?
    ensures QuietMove(s, id, DoInsertEvent(s, id))
  {
    InsertEventEffect(s, id);
    assert OutcomeOk(DoInsertEvent(s, id).calls[id], id, s.trace);
  }

  lemma InsertMove(s: State, id: CallId)
    requires CallEnabled(s, id, Insert)
    ensures s.calls[id].cmd.Publish? ==> QuietMove(s, id, DoInsertEvent(s, id))
    ensures !s.calls[id].cmd.Publish? ==> QuietMove(s, id, DoInsertHistory(s, id))
  {
    if s.calls[id].cmd.Publish? { InsertEventMove(s, id); }
  }

  lemma DbErrorMove(s: State, id: CallId)
    requires CallEnabled(s, id, DbError)
    ensures QuietMove(s, id, Goto(s, id, Aborting(QueryError(s.calls[id].cmd, s.calls[id].pc))))
  {
    assert IsStatement(s.calls[id].pc);
  }

  lemma CallStepMoves(s: State, id: CallId, a: CallAction)
    requires OutcomesOk(s) && C.CallsOk(s) && CallEnabled(s, id, a)
    ensures QuietMove(s, id, CallNext(s, id, a)) || exists v :: RecordMove(s, id, CallNext(s, id, a), v)
  {
    match a
    case Check(outcome) => CheckMove(s, id, outcome);
    case Validate(clock) => ValidateMove(s, id, clock);
    case BeginError => BeginErrorMove(s, id);
    case Read => ReadMove(s, id);
    case VerifyRow => VerifyMove(s, id);
    case Write => WriteMove(s, id);
    case Insert => InsertMove(s, id);
    case DbError => DbErrorMove(s, id);
    case Commit(result) =>
      CommitMove(s, id, if result == CommitOk then Accepted else Rejected(CommitError(s.calls[id].cmd)),
                 result != CommitErrorLost);
    case Rollback => RollbackMove(s, id);
    case Crash(applied) => CrashMove(s, id, applied);
    case _ => SmallMove(s, id, a);
  }

  lemma SmallMove(s: State, id: CallId, a: CallAction)
    requires CallEnabled(s, id, a) && (a.Invoke? || a.Begin?)
    ensures QuietMove(s, id, CallNext(s, id, a))
  {
  }

  lemma CommandsKeepRun(s: State, id: CallId, a: CallAction)
    requires RunInv(s) && C.CallsOk(s) && CallEnabled(s, id, a)
    ensures RunInv(CallNext(s, id, a))
  {
    var s' := CallNext(s, id, a);
    CallStepMoves(s, id, a);
    if QuietMove(s, id, s') {
      QuietMoveKeeps(s, id, s');
    } else {
      var v :| RecordMove(s, id, s', v);
      RecordMoveKeeps(s, id, s', v);
    }
  }

  lemma PublishersKeepRun(s: State, p: PubId, a: PubAction)
    requires RunInv(s) && PubEnabled(s, p, a)
    ensures RunInv(PubNext(s, p, a))
  {
    SameCommands(s, PubNext(s, p, a));
  }

  lemma SameCommands(s: State, s': State)
    requires RunInv(s) && Commands(s') == Commands(s)
    ensures RunInv(s')
  {
  }

  // ----- the outbox over time -----

  /** The rows that were failed from the start are the failed rows for ever. */
  ghost predicate FailedAreLegacy(outbox0: Outbox, outbox: Outbox) {
    forall id :: (id in outbox && outbox[id].status == Failed) <==> (id in outbox0 && outbox0[id].status == Failed)
  }

  /** Rows never disappear, their columns written at insertion never change, and a sent row never changes at all. */
  ghost predicate OutboxAdvances(before: Outbox, after: Outbox) {
    forall id ::
      id in before ==>
        id in after && after[id].head == before[id].head && (P.IsSent(before, id) ==> after[id] == before[id])
  }

  lemma MarkedAdvances(before: Outbox, after: Outbox, outbox0: Outbox)
    requires OutboxMarked(before, after)
    ensures OutboxAdvances(before, after)
    ensures FailedAreLegacy(outbox0, before) ==> FailedAreLegacy(outbox0, after)
  {
    forall id | id in before ensures after[id].head == before[id].head {
      assert Heads(after)[id] == Heads(before)[id];
    }
  }

  lemma InsertedAdvances(s: State, s': State, outbox0: Outbox)
    requires CommandFrame(s, s')
    ensures OutboxAdvances(s.outbox, s'.outbox)
    ensures FailedAreLegacy(outbox0, s.outbox) ==> FailedAreLegacy(outbox0, s'.outbox)
  {
  }

  // ----- the whole invariant -----

  ghost predicate Inv(s0: State, s: State) {
    && C.CommandInv(s) && P.PublisherInv(s) && RunInv(s)
    && Serializes(View(s0), s.trace, View(s)) && FailedAreLegacy(s0.outbox, s.outbox)
  }

  lemma InitInv(s0: State)
    requires Init(s0)
    ensures Inv(s0, s0)
  {
  }

  lemma CommandStepInv(s0: State, s: State, id: CallId, a: CallAction)
    requires Inv(s0, s) && CallEnabled(s, id, a)
    ensures Inv(s0, CallNext(s, id, a)) && OutboxAdvances(s.outbox, CallNext(s, id, a).outbox)
  {
    C.CallStepKeeps(s, id, a);
    C.CallStepSerial(View(s0), s, id, a);
    CommandsKeepPublishers(s, id, a);
    CommandsKeepRun(s, id, a);
    CommandFrameHolds(s, id, a);
    InsertedAdvances(s, CallNext(s, id, a), s0.outbox);
  }

  lemma PublisherStepInv(s0: State, s: State, p: PubId, a: PubAction)
    requires Inv(s0, s) && PubEnabled(s, p, a)
    ensures Inv(s0, PubNext(s, p, a)) && OutboxAdvances(s.outbox, PubNext(s, p, a).outbox)
  {
    P.PubStepKeeps(s, p, a);
    PublisherKeepsCommands(s, p, a);
    PublishersKeepRun(s, p, a);
    PublisherMarks(s, p, a);
    MarkedAdvances(s.outbox, PubNext(s, p, a).outbox, s0.outbox);
  }

  lemma StepInv(s0: State, s: State, a: Action)
    requires Inv(s0, s) && Enabled(s, a)
    ensures Inv(s0, Next(s, a)) && OutboxAdvances(s.outbox, Next(s, a).outbox) && s.log <= Next(s, a).log
  {
    match a
    case CallStep(id, act) => CommandStepInv(s0, s, id, act); CommandFrameHolds(s, id, act);
    case PubStep(p, act) => PublisherStepInv(s0, s, p, act);
  }

  /** Time moves forward: rows, log and trace are only added to, and sent rows are frozen. */
  ghost predicate Advances(s: State, s': State) {
    OutboxAdvances(s.outbox, s'.outbox) && s.log <= s'.log && s.trace <= s'.trace
  }

  lemma StepAdvances(s0: State, s: State, a: Action)
    requires Inv(s0, s) && Enabled(s, a)
    ensures Inv(s0, Next(s, a)) && Advances(s, Next(s, a))
  {
    StepInv(s0, s, a);
    if a.CallStep? { CallStepMoves(s, a.call, a.call_action); }
  }

  lemma {:induction false} RunKeeps(s0: State, s: State, run: seq<Action>)
    requires Inv(s0, s) && ValidRun(s, run)
    ensures Inv(s0, Final(s, run)) && Advances(s, Final(s, run))
    decreases |run|
  {
    if run != [] {
      var shorter := run[..|run| - 1];
      RunKeeps(s0, s, shorter);
      StepAdvances(s0, Final(s, shorter), run[|run| - 1]);
    }
  }

  /** Every reachable state satisfies the invariant. */
  lemma Reachable(s0: State, run: seq<Action>, s: State)
    requires Init(s0) && Leads(s0, run, s)
    ensures Inv(s0, s)
  {
    LeadsIsFinal(s0, run, s);
    InitInv(s0);
    RunKeeps(s0, s0, run);
  }

  lemma LaterAdvances(s0: State, run: seq<Action>, s: State, run': seq<Action>, s': State)
    requires Init(s0) && Leads(s0, run, s) && Leads(s, run', s')
    ensures Advances(s, s')
  {
    Reachable(s0, run, s);
    LeadsIsFinal(s, run', s');
    RunKeeps(s0, s, run');
  }

  /** The trace at any point of a run is the beginning of the trace at its end. */
  lemma TraceGrows(s0: State, states: seq<State>, run: seq<Action>, n: nat)
    requires Init(s0) && Behaviour(states, run) && states[0] == s0 && n <= |run|
    ensures states[n].trace <= states[|run|].trace
  {
    PartLeads(states, run, 0, n);
    PartLeads(states, run, n, |run|);
    LaterAdvances(s0, run[0..n], states[n], run[n..|run|], states[|run|]);
  }
}
