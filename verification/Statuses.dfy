/** What an HTTP status tells a caller, over every run from an initial state. */
module Statuses {
  import opened Errors
  import opened Serial
  import opened Protocol
  import opened System
  import opened Theorems

  // ----- status codes -----

  /** The status line that the handler of the command writes. */
  function HttpStatus(cmd: Command, reply: Reply): nat
    requires !reply.NoReply?
  {
    match reply
    case Accepted => if cmd.Create? then 201 else 200
    case Rejected(err) => if cmd.Publish? then PublishErrorStatus(err) else ServiceErrorStatus(err)
  }

  function VerdictStatus(v: Verdict): nat {
    match v
    case NotFound => 404
    case NotDriver => 403
    case AlreadyPublished => 204
    case WrongStatus => 409
    case _ => 500
  }

  lemma BlockErrorIs(cmd: Command, err: Error)
    ensures forall s :: BlockError(cmd, err).Is(s) <==> err.Is(s)
  {
    WrappedIs(InBlock, err);
    WrappedIs(InPublishTrip, Wrapped(InBlock, err));
    WrappedIs(InCreateTrip, Wrapped(InBlock, err));
  }

  lemma VerdictErrorStatus(cmd: Command, v: Verdict)
    requires v != Success
    ensures HttpStatus(cmd, Rejected(VerdictError(cmd, v))) ==
            if v == AlreadyPublished && !cmd.Publish? then 500 else VerdictStatus(v)
  {
    var err := VerdictError(cmd, v);
    if err.Wrap? { WrappedIs(err.context, err.causes[0]); }
  }

  /** Three layers of wrapping do not hide a verdict from the handler. */
  lemma VerdictShows(cmd: Command, v: Verdict)
    requires v != Success
    ensures HttpStatus(cmd, Rejected(BlockError(cmd, VerdictError(cmd, v)))) ==
            if v == AlreadyPublished && !cmd.Publish? then 500 else VerdictStatus(v)
  {
    BlockErrorIs(cmd, VerdictError(cmd, v));
    VerdictErrorStatus(cmd, v);
  }

  lemma CheckShows(cmd: Command, outcome: CheckOutcome)
    requires outcome != Allowed
    ensures HttpStatus(cmd, Rejected(CheckError(outcome))) ==
            match outcome case Unavailable(_) => 503 case InvalidResponse => 502 case _ => 403
  {
    var err := CheckError(outcome);
    if outcome.Unavailable? {
      assert err.causes[0].Is(ErrUnavailable);
      assert !err.causes[0].Is(ErrTripAlreadyPublished) && !err.causes[1].Is(ErrTripAlreadyPublished);
    } else if outcome.InvalidResponse? {
      WrappedIs(InContractResponse, Base(ErrInvalidResponse));
    }
  }

  lemma InvalidShows(cmd: Command)
    requires cmd.Create?
    ensures HttpStatus(cmd, Rejected(InvalidCommand())) == 400
  {
    var err := InvalidCommand();
    assert err.causes[0].Is(ErrValidation);
    assert forall s: Sentinel, i :: 0 <= i < 2 && s != ErrValidation ==> !err.causes[i].Is(s);
  }

  // ----- failures of the database -----

  predicate NoSentinel(err: Error) {
    forall s: Sentinel :: !err.Is(s)
  }

  lemma PlainBelow(cmd: Command, err: Error)
    requires NoSentinel(err)
    ensures NoSentinel(ServiceError(cmd, err)) && HttpStatus(cmd, Rejected(err)) == 500
  {
    WrappedIs(InCreateTrip, err);
    WrappedIs(InPublishTrip, err);
  }

  lemma QueryErrorIsPlain(cmd: Command, pc: CallPc)
    ensures NoSentinel(QueryError(cmd, pc))
  {
    var err := QueryError(cmd, pc);
    var cause := err.causes[0];
    WrappedIs(err.context, cause);
    if cause.Wrap? { WrappedIs(cause.context, cause.causes[0]); }
  }

  /** No failure of the database carries a sentinel, so all of them are answered 500. */
  lemma FailureShows(cmd: Command, err: Error)
    requires DatabaseFailure(cmd, err)
    ensures NoSentinel(err) && HttpStatus(cmd, Rejected(err)) == 500
  {
    if pc :| IsStatement(pc) && err == BlockError(cmd, QueryError(cmd, pc)) {
      QueryErrorIsPlain(cmd, pc);
      WrappedIs(InBlock, QueryError(cmd, pc));
      PlainBelow(cmd, Wrapped(InBlock, QueryError(cmd, pc)));
    } else {
      WrappedIs(InBegin, Foreign(FromDatabase));
      WrappedIs(InCommit, Foreign(FromDatabase));
      PlainBelow(cmd, Wrapped(InBegin, Foreign(FromDatabase)));
      PlainBelow(cmd, Wrapped(InCommit, Foreign(FromDatabase)));
    }
    PlainBelow(cmd, err);
  }

  // ----- what the status means -----

  /** The serial verdict recorded for the call, if any. */
  ghost predicate HasVerdict(s: State, id: CallId, v: Verdict) {
    exists i :: Recorded(s.trace, i, id, v)
  }

  ghost predicate StatusMeans(s: State, id: CallId, status: nat, reply: Reply, applied: bool)
    requires id in s.calls
  {
    var cmd := s.calls[id].cmd;
    && (applied ==> status == 200 || status == 201 || status == 500)
    && (status == 200 || status == 201 ==> reply == Accepted && applied && HasVerdict(s, id, Success))
    && (reply == Accepted <==> status == if cmd.Create? then 201 else 200)
    && (status == 204 ==> cmd.Publish? && HasVerdict(s, id, AlreadyPublished))
    && (status == 400 ==> cmd.Create? && reply == Rejected(InvalidCommand()))
    && (status == 403 ==> HasVerdict(s, id, NotDriver) || (!cmd.Create? && reply == Rejected(CheckError(Denied))))
    && (status == 404 ==> HasVerdict(s, id, NotFound))
    && (status == 409 ==> HasVerdict(s, id, WrongStatus))
    && (status == 500 ==>
        reply.Rejected? && DatabaseFailure(cmd, reply.err) && (applied ==> reply.err == CommitError(cmd)))
    && (status == 502 ==> !cmd.Create? && reply == Rejected(CheckError(InvalidResponse)))
    && (status == 503 ==> !cmd.Create? && exists text :: reply == Rejected(CheckError(CheckOutcome.Unavailable(text))))
    && status in {200, 201, 204, 400, 403, 404, 409, 500, 502, 503}
  }

  /**
   * Every status but 500 tells the caller whether the call took effect, and why not if it did not.  A 500 is a failure
   * of the database; if the call took effect all the same, then it is the failure of the commit.
   */
  lemma StatusTellsEffect(s0: State, run: seq<Action>, s: State, id: CallId)
    requires Init(s0) && Leads(s0, run, s)
    requires id in s.calls && s.calls[id].pc.Finished? && !s.calls[id].pc.reply.NoReply?
    ensures var pc := s.calls[id].pc;
      StatusMeans(s, id, HttpStatus(s.calls[id].cmd, pc.reply), pc.reply, pc.applied)
  {
    ReachableOutcomes(s0, run, s);
    OutcomeStatus(s, id);
  }

  lemma OutcomeStatus(s: State, id: CallId)
    requires id in s.calls && s.calls[id].pc.Finished? && !s.calls[id].pc.reply.NoReply?
    requires OutcomesOk(s) && TraceOfCalls(s)
    ensures var pc := s.calls[id].pc;
      StatusMeans(s, id, HttpStatus(s.calls[id].cmd, pc.reply), pc.reply, pc.applied)
  {
    var c := s.calls[id];
    assert OutcomeOk(c, id, s.trace);
    if c.pc.applied {
      var i :| Recorded(s.trace, i, id, Success);
      assert Settled(c, Success);
      FailureShows(c.cmd, CommitError(c.cmd));
    } else {
      RejectionStatus(s, id, c.pc.reply.err);
    }
  }

  lemma RejectionStatus(s: State, id: CallId, err: Error)
    requires id in s.calls && Rejection(s.calls[id].cmd, id, err, s.trace) && TraceOfCalls(s)
    ensures StatusMeans(s, id, HttpStatus(s.calls[id].cmd, Rejected(err)), Rejected(err), false)
  {
    var cmd := s.calls[id].cmd;
    if DatabaseFailure(cmd, err) {
      FailureShows(cmd, err);
    } else if i, v :| Recorded(s.trace, i, id, v) && v != Success && err == BlockError(cmd, VerdictError(cmd, v)) {
      assert Settled(s.calls[id], v);
      VerdictShows(cmd, v);
    } else if cmd.Create? {
      InvalidShows(cmd);
    } else {
      var o :| o != Allowed && err == CheckError(o);
      CheckShows(cmd, o);
    }
  }

  /**
   * A call that took effect answers success, the error of the commit, or nothing; so any other error changed nothing.
   */
  lemma AppliedErrorIsCommitError(s0: State, run: seq<Action>, s: State, id: CallId)
    requires Init(s0) && Leads(s0, run, s) && id in s.calls && s.calls[id].pc.Finished? && s.calls[id].pc.applied
    ensures s.calls[id].pc.reply.Rejected? ==> s.calls[id].pc.reply.err == CommitError(s.calls[id].cmd)
  {
    ReachableOutcomes(s0, run, s);
    assert OutcomeOk(s.calls[id], id, s.trace);
    var i :| Recorded(s.trace, i, id, Success);
    assert Settled(s.calls[id], Success);
  }

  /** What the serial machine has refused is answered with the status of its verdict, or not at all. */
  lemma VerdictDecidesStatus(s0: State, run: seq<Action>, s: State, i: nat)
    requires Init(s0) && Leads(s0, run, s) && i < |s.trace| && s.trace[i].verdict != Success
    requires s.trace[i].call in s.calls && s.calls[s.trace[i].call].pc.Finished?
    ensures var id, v := s.trace[i].call, s.trace[i].verdict;
      var cmd, pc := s.calls[id].cmd, s.calls[id].pc;
      !pc.applied && (pc.reply == NoReply || (pc.reply.Rejected? && HttpStatus(cmd, pc.reply) == VerdictStatus(v)))
  {
    ReachableOutcomes(s0, run, s);
    var id, v := s.trace[i].call, s.trace[i].verdict;
    assert Settled(s.calls[id], v);
    VerdictShows(s.calls[id].cmd, v);
  }

  // ----- status and metric label -----

  /** For the answer to a publish call, the metric label can be read off the status. */
  lemma LabelFollowsStatus(s0: State, run: seq<Action>, s: State, id: CallId)
    requires Init(s0) && Leads(s0, run, s)
    requires id in s.calls && s.calls[id].cmd.Publish? && s.calls[id].pc.Finished? && s.calls[id].pc.reply.Rejected?
    ensures SameStory(s.calls[id].pc.reply.err)
  {
    ReachableOutcomes(s0, run, s);
    var c := s.calls[id];
    assert OutcomeOk(c, id, s.trace);
    if c.pc.applied {
      AppliedErrorIsCommitError(s0, run, s, id);
      FailureShows(c.cmd, c.pc.reply.err);
    } else {
      RejectionHasOneSentinel(c.cmd, id, c.pc.reply.err, s.trace);
    }
    LabelAgreesWithStatus(c.pc.reply.err, []);
  }

  lemma RejectionHasOneSentinel(cmd: Command, id: CallId, err: Error, trace: seq<Entry>)
    requires cmd.Publish? && Rejection(cmd, id, err, trace)
    ensures AtMostOneSentinel(err)
  {
    if DatabaseFailure(cmd, err) {
      FailureShows(cmd, err);
    } else if i, v :| Recorded(trace, i, id, v) && v != Success && err == BlockError(cmd, VerdictError(cmd, v)) {
      BlockErrorIs(cmd, VerdictError(cmd, v));
      var inner := VerdictError(cmd, v);
      if inner.Wrap? { WrappedIs(inner.context, inner.causes[0]); }
    } else {
      var o :| o != Allowed && err == CheckError(o);
      CheckHasOneSentinel(o);
    }
  }

  lemma CheckHasOneSentinel(o: CheckOutcome)
    ensures AtMostOneSentinel(CheckError(o))
  {
    var err := CheckError(o);
    if o.Unavailable? {
      assert err.causes[0] == Base(ErrUnavailable) && err.causes[1].Foreign?;
      assert forall s: Sentinel :: err.Is(s) ==> s == ErrUnavailable;
    } else if o.InvalidResponse? {
      WrappedIs(InContractResponse, Base(ErrInvalidResponse));
    }
  }
}
