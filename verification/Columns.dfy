/** Where the columns that record times and failures come from, over every run. */
module Columns {
  import opened Domain
  import opened Serial
  import opened Protocol
  import opened System
  import opened Permissions
  import P = PublisherProof
  import T = Theorems

  // ----- trips and history -----

  /** Entry `i` of the trace has written trip `t`. */
  predicate Writes(trace: seq<Entry>, i: int, t: Uuid) {
    0 <= i < |trace| && trace[i].verdict == Success && trace[i].cmd.Key() == t
  }

  predicate WritesLast(trace: seq<Entry>, i: int, t: Uuid) {
    Writes(trace, i, t) && forall j :: i < j < |trace| ==> !Writes(trace, j, t)
  }

  /** Every trip shows the time of the command that wrote it last. */
  ghost predicate UpdatedWhen(d: Tables, trace: seq<Entry>) {
    forall t :: t in d.trips ==> exists i :: WritesLast(trace, i, t) && d.trips[t].updatedAt == trace[i].now
  }

  function Successes(trace: seq<Entry>): seq<Entry> {
    if trace == [] then [] else
    var last := trace[|trace| - 1];
    Successes(trace[..|trace| - 1]) + if last.verdict == Success then [last] else []
  }

  /** The history has one row for each successful command, in their order, with its trip and its time. */
  ghost predicate HistoryWhen(history: seq<HistoryRow>, trace: seq<Entry>) {
    && |history| == |Successes(trace)|
    && forall k :: 0 <= k < |history| ==>
         history[k].tripId == Successes(trace)[k].cmd.Key() && history[k].createdAt == Successes(trace)[k].now
  }

  lemma UpdatedStep(d: Tables, trace: seq<Entry>, e: Entry, d': Tables)
    requires UpdatedWhen(d, trace) && Exec(d, e.cmd, e.now) == Execution(d', e.verdict)
    ensures UpdatedWhen(d', trace + [e])
  {
    var longer := trace + [e];
    forall t | t in d'.trips
      ensures exists i :: WritesLast(longer, i, t) && d'.trips[t].updatedAt == longer[i].now
    {
      if Writes(longer, |trace|, t) {
        assert WritesLast(longer, |trace|, t);
      } else {
        var i :| WritesLast(trace, i, t) && d.trips[t].updatedAt == trace[i].now;
        assert forall j :: 0 <= j < |trace| ==> Writes(longer, j, t) == Writes(trace, j, t);
        assert WritesLast(longer, i, t);
      }
    }
  }

  lemma HistoryTimeStep(d: Tables, trace: seq<Entry>, e: Entry, d': Tables)
    requires HistoryWhen(d.history, trace) && RowsWellFormed(d) && Exec(d, e.cmd, e.now) == Execution(d', e.verdict)
    ensures HistoryWhen(d'.history, trace + [e])
  {
    assert (trace + [e])[..|trace|] == trace;
  }

  lemma {:induction false} TimesFromTrace(d0: Tables, trace: seq<Entry>, d: Tables)
    requires Fresh(d0) && Serializes(d0, trace, d)
    ensures UpdatedWhen(d, trace) && HistoryWhen(d.history, trace)
    decreases |trace|
  {
    if trace != [] {
      var shorter, e := trace[..|trace| - 1], trace[|trace| - 1];
      var before := Replay(d0, shorter);
      assert trace == shorter + [e];
      SerializesPrefix(d0, trace, d);
      TimesFromTrace(d0, shorter, before);
      SerialTheorem(d0, shorter, before);
      UpdatedStep(before, shorter, e, d);
      HistoryTimeStep(before, shorter, e, d);
    }
  }

  /**
   * In every reachable state each trip shows the time of the last command that wrote it, and the history has one row
   * for each successful command, in the order of their commits, with its trip and its time.
   */
  lemma RowsShowTheirTimes(s0: State, run: seq<Action>, s: State)
    requires Init(s0) && Leads(s0, run, s)
    ensures UpdatedWhen(View(s), s.trace) && HistoryWhen(s.history, s.trace)
  {
    Reachable(s0, run, s);
    T.InitIsFresh(s0);
    TimesFromTrace(View(s0), s.trace, View(s));
  }

  // ----- the time of a command -----

  /** The transaction of the call has begun, and the call is not over. */
  predicate HasBegun(s: State, id: CallId) {
    LetIn(s, id) && s.calls[id].pc != Beginning
  }

  lemma OnlyBeginBegins(s: State, id: CallId, a: CallAction)
    requires CallEnabled(s, id, a) && !HasBegun(s, id) && HasBegun(CallNext(s, id, a), id)
    ensures a == Begin(CallNext(s, id, a).calls[id].now)
  {
    assert a.Invoke? || a.Check? || a.Validate? || a.Begin? || a.BeginError? || a.Crash?;
  }

  /** The time of a call with an open transaction is that of its own begin. */
  lemma BegunAt(states: seq<State>, run: seq<Action>, n: nat, id: CallId) returns (j: nat)
    requires Behaviour(states, run) && states[0].calls == map[] && n <= |run| && HasBegun(states[n], id)
    ensures j < n && run[j] == CallStep(id, Begin(states[n].calls[id].now))
  {
    j := n - 1;
    while HasBegun(states[j], id)
      invariant j < n && HasBegun(states[j + 1], id) && states[j + 1].calls[id].now == states[n].calls[id].now
      decreases j
    {
      assert StepAt(states, run, j);
      if run[j].CallStep? { CallMovesAlone(states[j], run[j].call, run[j].call_action); }
      j := j - 1;
    }
    assert StepAt(states, run, j);
    if run[j].CallStep? {
      CallMovesAlone(states[j], run[j].call, run[j].call_action);
      if run[j].call == id { OnlyBeginBegins(states[j], id, run[j].call_action); }
    }
  }

  /** Whatever is recorded of a command carries the time at which its own transaction has begun, earlier in the run. */
  lemma EntryTimeIsOfBegin(s0: State, states: seq<State>, run: seq<Action>, s: State, i: nat)
    requires Init(s0) && Links(states, run, s0, s) && i < |s.trace|
    ensures exists j, n ::
      0 <= j < n && Records(states, run, n, i) && run[j] == CallStep(s.trace[i].call, Begin(s.trace[i].now))
  {
    var n := WhoRecorded(s0, states, run, s, i);
    var j := BegunAt(states, run, n, s.trace[i].call);
    assert 0 <= j < n && Records(states, run, n, i);
  }

  // ----- outbox rows -----

  /** A row is sent exactly if it has a time of sending, and it has an error exactly if an attempt has failed. */
  predicate Consistent(row: OutboxRow) {
    && (row.status == Sent <==> row.sentAt.Some?)
    && (row.attempts > 0 <==> row.lastError.Some?)
  }

  ghost predicate NewRowsConsistent(outbox0: Outbox, outbox: Outbox) {
    forall id :: id in outbox && id !in outbox0 ==> Consistent(outbox[id])
  }

  lemma CommitKeepsConsistent(outbox0: Outbox, before: Outbox, pub: Pub, after: Outbox)
    requires NewRowsConsistent(outbox0, before) && P.CommittedBatch(before, pub, after)
    ensures NewRowsConsistent(outbox0, after)
  {
    forall id | id in after && id !in outbox0 ensures Consistent(after[id]) {
      assert Consistent(before[id]);
      if i :| 0 <= i < |pub.batch| && pub.batch[i].id == id { }
    }
  }

  lemma InsertKeepsConsistent(outbox0: Outbox, s: State, s': State)
    requires NewRowsConsistent(outbox0, s.outbox) && CommandFrame(s, s')
    ensures NewRowsConsistent(outbox0, s'.outbox)
  {
  }

  lemma BatchKeepsConsistent(outbox0: Outbox, s: State, p: PubId, a: PubAction)
    requires NewRowsConsistent(outbox0, s.outbox) && P.PubsOk(s) && PubEnabled(s, p, a)
    ensures NewRowsConsistent(outbox0, PubNext(s, p, a).outbox)
  {
    if AppliesBatch(a) {
      T.AppliedIsEndTx(s, p, a);
      P.CommitEffect(s, p);
      CommitKeepsConsistent(outbox0, s.outbox, s.pubs[p], s.outbox + s.pubs[p].writes);
    }
  }

  lemma StepKeepsConsistent(s0: State, s: State, a: Action)
    requires Inv(s0, s) && NewRowsConsistent(s0.outbox, s.outbox) && Enabled(s, a)
    ensures NewRowsConsistent(s0.outbox, Next(s, a).outbox)
  {
    match a
    case CallStep(id, act) =>
      CommandFrameHolds(s, id, act);
      InsertKeepsConsistent(s0.outbox, s, CallNext(s, id, act));
    case PubStep(p, act) => BatchKeepsConsistent(s0.outbox, s, p, act);
  }

  lemma {:induction false} RunKeepsConsistent(s0: State, run: seq<Action>)
    requires Init(s0) && ValidRun(s0, run)
    ensures Inv(s0, Final(s0, run)) && NewRowsConsistent(s0.outbox, Final(s0, run).outbox)
    decreases |run|
  {
    if run == [] {
      InitInv(s0);
    } else {
      var shorter := run[..|run| - 1];
      RunKeepsConsistent(s0, shorter);
      StepInv(s0, Final(s0, shorter), run[|run| - 1]);
      StepKeepsConsistent(s0, Final(s0, shorter), run[|run| - 1]);
    }
  }

  /**
   * In every reachable state each event that a command has written is sent if and only if it has a time of sending,
   * and has an error if and only if it has a failed attempt; so it starts with neither.
   */
  lemma RowsAreConsistent(s0: State, run: seq<Action>, s: State)
    requires Init(s0) && Leads(s0, run, s)
    ensures NewRowsConsistent(s0.outbox, s.outbox)
  {
    LeadsIsFinal(s0, run, s);
    RunKeepsConsistent(s0, run);
  }

  // ----- the time of a batch -----

  /** The publisher has a transaction open. */
  predicate InBatch(s: State, p: PubId) {
    p in s.pubs && s.pubs[p].pc != Resting && s.pubs[p].pc != Counting
  }

  /** An action that opens or ends a transaction of publisher `p`. */
  predicate Delimits(a: Action, p: PubId) {
    && a.PubStep? && a.pub == p
    && (a.pub_action.OpenTx? || a.pub_action.CommitTx? || a.pub_action.RollbackTx? || a.pub_action.CrashPub?)
  }

  lemma CallKeepsPubs(s: State, id: CallId, a: CallAction)
    requires CallEnabled(s, id, a)
    ensures CallNext(s, id, a).pubs == s.pubs
  {
    assert !AppliesCommand(a) ==> Publishers(CallNext(s, id, a)) == Publishers(s);
  }

  /**
   * In an open transaction the publisher came either from its opening or from the same transaction, at the same time.
   */
  lemma BatchStep(s: State, a: Action, p: PubId)
    requires Enabled(s, a) && InBatch(Next(s, a), p)
    ensures if InBatch(s, p) then !Delimits(a, p) && Next(s, a).pubs[p].now == s.pubs[p].now
            else a == PubStep(p, OpenTx(Next(s, a).pubs[p].now))
  {
    match a
    case CallStep(id, act) => CallKeepsPubs(s, id, act);
    case PubStep(q, act) =>
      if q == p { OwnBatchStep(s, p, act); } else { OthersKeepPub(s, q, act, p); }
  }

  lemma OthersKeepPub(s: State, q: PubId, a: PubAction, p: PubId)
    requires PubEnabled(s, q, a) && p in PubNext(s, q, a).pubs && q != p
    ensures p in s.pubs && PubNext(s, q, a).pubs[p] == s.pubs[p]
  {
  }

  lemma OwnBatchStep(s: State, p: PubId, a: PubAction)
    requires PubEnabled(s, p, a) && InBatch(PubNext(s, p, a), p)
    ensures if InBatch(s, p) then !Delimits(PubStep(p, a), p) && PubNext(s, p, a).pubs[p].now == s.pubs[p].now
            else a == OpenTx(PubNext(s, p, a).pubs[p].now)
  {
  }

  /** Action `j` has opened the transaction that publisher `p` has open at `n`. */
  ghost predicate OpenedBy(run: seq<Action>, p: PubId, j: int, n: nat, now: Time) {
    && 0 <= j < n <= |run| && run[j] == PubStep(p, OpenTx(now))
    && forall k :: j < k < n ==> !Delimits(run[k], p)
  }

  lemma OpenedAt(states: seq<State>, run: seq<Action>, n: nat, p: PubId) returns (j: nat)
    requires Behaviour(states, run) && states[0].pubs == map[] && n <= |run| && InBatch(states[n], p)
    ensures OpenedBy(run, p, j, n, states[n].pubs[p].now)
  {
    j := n - 1;
    while InBatch(states[j], p)
      invariant j < n && InBatch(states[j + 1], p) && states[j + 1].pubs[p].now == states[n].pubs[p].now
      invariant forall k :: j < k < n ==> !Delimits(run[k], p)
      decreases j
    {
      assert StepAt(states, run, j);
      BatchStep(states[j], run[j], p);
      j := j - 1;
    }
    assert StepAt(states, run, j);
    BatchStep(states[j], run[j], p);
  }

  lemma InsertSendsNothing(s: State, s': State, id: Uuid)
    requires CommandFrame(s, s') && !P.IsSent(s.outbox, id)
    ensures !P.IsSent(s'.outbox, id)
  {
  }

  lemma OthersKeepStatus(before: Outbox, pub: Pub, after: Outbox, id: Uuid)
    requires P.CommittedBatch(before, pub, after) && id in after
    ensures id in before && (id in pub.acked || after[id].status == before[id].status)
  {
    if i :| 0 <= i < |pub.batch| && pub.batch[i].id == id { }
  }

  lemma CommitSends(before: Outbox, pub: Pub, after: Outbox, id: Uuid)
    requires P.CommittedBatch(before, pub, after) && !P.IsSent(before, id) && P.IsSent(after, id)
    ensures after[id].sentAt == Some(pub.now)
  {
    OthersKeepStatus(before, pub, after, id);
  }

  lemma BatchSends(s: State, p: PubId, a: PubAction, id: Uuid)
    requires P.PubsOk(s) && PubEnabled(s, p, a) && !P.IsSent(s.outbox, id) && P.IsSent(PubNext(s, p, a).outbox, id)
    ensures AppliesBatch(a) && InBatch(s, p) && PubNext(s, p, a).outbox[id].sentAt == Some(s.pubs[p].now)
  {
    assert AppliesBatch(a);
    T.AppliedIsEndTx(s, p, a);
    P.CommitEffect(s, p);
    CommitSends(s.outbox, s.pubs[p], s.outbox + s.pubs[p].writes, id);
  }

  lemma BecomesSent(s0: State, s: State, a: Action, id: Uuid)
    requires Inv(s0, s) && Enabled(s, a) && !P.IsSent(s.outbox, id) && P.IsSent(Next(s, a).outbox, id)
    ensures a.PubStep? && AppliesBatch(a.pub_action) && InBatch(s, a.pub)
    ensures Next(s, a).outbox[id].sentAt == Some(s.pubs[a.pub].now)
  {
    if a.CallStep? {
      CommandFrameHolds(s, a.call, a.call_action);
      InsertSendsNothing(s, CallNext(s, a.call, a.call_action), id);
    } else {
      BatchSends(s, a.pub, a.pub_action, id);
    }
  }

  /**
   * A row becomes sent by the commit of a batch only, and its time of sending is that at which this batch was opened.
   */
  lemma SentAtIsOfOpening(s0: State, states: seq<State>, run: seq<Action>, n: nat, id: Uuid)
    requires Init(s0) && Behaviour(states, run) && states[0] == s0 && n < |run|
    requires !P.IsSent(states[n].outbox, id) && P.IsSent(states[n + 1].outbox, id)
    ensures run[n].PubStep? && AppliesBatch(run[n].pub_action)
    ensures exists j, now :: OpenedBy(run, run[n].pub, j, n, now) && states[n + 1].outbox[id].sentAt == Some(now)
  {
    assert StepAt(states, run, n);
    PartLeads(states, run, 0, n);
    Reachable(s0, run[0..n], states[n]);
    BecomesSent(s0, states[n], run[n], id);
    var j := OpenedAt(states, run, n, run[n].pub);
    assert OpenedBy(run, run[n].pub, j, n, states[n].pubs[run[n].pub].now);
  }
}
