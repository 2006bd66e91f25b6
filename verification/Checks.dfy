/** What a call has had to pass, in terms of its command and of the row it is about, over every run. */
module Checks {
  import opened Domain
  import opened Errors
  import opened Serial
  import opened Protocol
  import opened Permissions
  import opened Statuses
  import opened System
  import T = Theorems

  // ----- what an answer tells of the trip -----

  /** Any beginning of a serial trace is a serial trace. */
  lemma PartSerializes(d0: Tables, trace: seq<Entry>, d: Tables, i: nat)
    requires Serializes(d0, trace, d) && i <= |trace|
    ensures Serializes(d0, trace[..i], Replay(d0, trace[..i]))
  {
    forall k | 0 <= k < i
      ensures Exec(Replay(d0, trace[..i][..k]), trace[..i][k].cmd, trace[..i][k].now).verdict == trace[..i][k].verdict
    {
      assert trace[..i][..k] == trace[..k];
    }
  }

  /** Trip `t` keeps its driver from `before` to `after`, and only moves on. */
  ghost predicate MovesOn(before: Tables, after: Tables, t: Uuid) {
    t in before.trips ==>
      && t in after.trips && after.trips[t].driverId == before.trips[t].driverId
      && (PastDraft(before.trips[t].status) ==> PastDraft(after.trips[t].status))
      && (before.trips[t].status == Started ==> after.trips[t].status == Started)
  }

  lemma StatusMovesOn(before: Tables, part: seq<Entry>, after: Tables, trace: seq<Entry>, t: Uuid)
    requires EventsFromPublishers(before, part) && StartsRecorded(before, part) && part <= trace && t in before.trips
    requires EventsFromPublishers(after, trace) && StartsRecorded(after, trace)
    ensures PastDraft(before.trips[t].status) ==> t in after.trips && PastDraft(after.trips[t].status)
    ensures before.trips[t].status == Started ==> t in after.trips && after.trips[t].status == Started
  {
    if PastDraft(before.trips[t].status) {
      var k :| Publishes(part, k, t);
      assert Publishes(trace, k, t);
      assert WrittenBy(after, trace[k], t);
    }
    if before.trips[t].status == Started {
      var k :| Starts(part, k, t);
      assert Starts(trace, k, t);
    }
  }

  lemma TripsMoveOn(d0: Tables, trace: seq<Entry>, d: Tables, i: nat, t: Uuid)
    requires Fresh(d0) && Serializes(d0, trace, d) && i <= |trace|
    ensures MovesOn(Replay(d0, trace[..i]), d, t) && RowsWellFormed(Replay(d0, trace[..i]))
  {
    var before := Replay(d0, trace[..i]);
    PartSerializes(d0, trace, d, i);
    SerialTheorem(d0, trace[..i], before);
    SerialTheorem(d0, trace, d);
    if t in before.trips {
      T.DetailsStay(before, trace[..i], d, trace, t);
      StatusMovesOn(before, trace[..i], d, trace, t);
    }
  }

  /** What a verdict on trip `cmd.tripId` tells of it for all time to come. */
  ghost predicate VerdictFits(d: Tables, cmd: Command, v: Verdict)
    requires !cmd.Create?
  {
    var t := cmd.tripId;
    && (v == Success || v == AlreadyPublished || v == WrongStatus ==>
          t in d.trips && d.trips[t].driverId == cmd.clientId)
    && (v == NotDriver ==> t in d.trips && d.trips[t].driverId != cmd.clientId)
    && (v == Success ==>
        t in d.trips && if cmd.Publish? then PastDraft(d.trips[t].status) else d.trips[t].status == Started)
    && (v == AlreadyPublished ==> t in d.trips && PastDraft(d.trips[t].status))
    && (v == WrongStatus && cmd.Publish? ==> t in d.trips && d.trips[t].status == Started)
  }

  lemma VerdictStaysTrue(d0: Tables, trace: seq<Entry>, d: Tables, i: nat)
    requires Fresh(d0) && Serializes(d0, trace, d) && i < |trace| && !trace[i].cmd.Create?
    ensures VerdictFits(d, trace[i].cmd, trace[i].verdict)
  {
    var e, t, before := trace[i], trace[i].cmd.tripId, Replay(d0, trace[..i]);
    VerdictMeans(before, e.cmd, e.now);
    TripsMoveOn(d0, trace, d, i, t);
    SerialTheorem(d0, trace, d);
    if e.verdict == Success {
      if e.cmd.Publish? {
        assert Publishes(trace, i, t);
        assert WrittenBy(d, e, t);
      } else {
        assert Starts(trace, i, t);
      }
    }
  }

  /** What the status of a publish or start call tells of the trip, from then on. */
  ghost predicate StatusFits(s: State, cmd: Command, status: nat, reply: Reply)
    requires !cmd.Create?
  {
    var t := cmd.tripId;
    && (status == 200 || status == 204 || status == 409 ==> t in s.trips && s.trips[t].driverId == cmd.clientId)
    && (status == 403 && reply != Rejected(CheckError(Denied)) ==> t in s.trips && s.trips[t].driverId != cmd.clientId)
    && (status == 200 ==> if cmd.Publish? then PastDraft(s.trips[t].status) else s.trips[t].status == Started)
    && (status == 204 ==> PastDraft(s.trips[t].status))
    && (status == 409 && cmd.Publish? ==> s.trips[t].status == Started)
  }

  /**
   * The status tells strangers nothing: 200, 204 and 409 are for the driver of the trip only, and who passes the check
   * and gets 403 is not its driver.  Moreover 200 and 204 mean that the trip is published (started) by now, and 409
   * for a publish that it is started.
   */
  lemma StatusIsForDriver(s0: State, run: seq<Action>, s: State, id: CallId)
    requires Init(s0) && Leads(s0, run, s) && id in s.calls && !s.calls[id].cmd.Create?
    requires s.calls[id].pc.Finished? && !s.calls[id].pc.reply.NoReply?
    ensures var cmd, reply := s.calls[id].cmd, s.calls[id].pc.reply;
      StatusFits(s, cmd, HttpStatus(cmd, reply), reply)
  {
    var cmd, pc := s.calls[id].cmd, s.calls[id].pc;
    var status := HttpStatus(cmd, pc.reply);
    StatusTellsEffect(s0, run, s, id);
    forall v | HasVerdict(s, id, v) ensures VerdictFits(View(s), cmd, v) {
      RecordedVerdictFits(s0, run, s, id, v);
    }
  }

  lemma RecordedVerdictFits(s0: State, run: seq<Action>, s: State, id: CallId, v: Verdict)
    requires Init(s0) && Leads(s0, run, s) && id in s.calls && !s.calls[id].cmd.Create? && HasVerdict(s, id, v)
    ensures VerdictFits(View(s), s.calls[id].cmd, v)
  {
    var i :| Recorded(s.trace, i, id, v);
    Reachable(s0, run, s);
    T.InitIsFresh(s0);
    VerdictStaysTrue(View(s0), s.trace, View(s), i);
  }

  // ----- creating a trip -----

  /** The characters that a point may not consist of alone: the white space of Unicode. */
  lemma SpacesAre(c: char)
    ensures IsSpace(c) <==> c as int in {
      0x09, 0x0a, 0x0b, 0x0c, 0x0d, 0x20, 0x85, 0xa0, 0x1680, 0x2000, 0x2001, 0x2002, 0x2003, 0x2004, 0x2005, 0x2006,
      0x2007, 0x2008, 0x2009, 0x200a, 0x2028, 0x2029, 0x202f, 0x205f, 0x3000}
  {
  }

  predicate HasText(text: string) {
    exists i :: 0 <= i < |text| && !IsSpace(text[i])
  }

  lemma OnlyValidateLetsIn(s: State, id: CallId, a: CallAction) returns (clock: Time)
    requires CallEnabled(s, id, a) && !LetIn(s, id) && LetIn(CallNext(s, id, a), id)
    requires CallNext(s, id, a).calls[id].cmd.Create?
    ensures a == Validate(clock) && id in s.calls && s.calls[id].cmd.Create? && ValidCreate(s.calls[id].cmd, clock)
    ensures CallNext(s, id, a).calls[id].cmd == s.calls[id].cmd
  {
    assert a.Invoke? || a.Check? || a.Validate? || a.Crash?;
    clock := a.clock;
  }

  /** A create call with an open transaction has been found valid. */
  lemma LetInByValidate(states: seq<State>, run: seq<Action>, n: nat, id: CallId) returns (j: nat, clock: Time)
    requires Behaviour(states, run) && states[0].calls == map[] && n <= |run|
    requires LetIn(states[n], id) && states[n].calls[id].cmd.Create?
    ensures j < n && run[j] == CallStep(id, Validate(clock)) && ValidCreate(states[n].calls[id].cmd, clock)
  {
    j := n - 1;
    while LetIn(states[j], id)
      invariant j < n && LetIn(states[j + 1], id) && states[j + 1].calls[id].cmd == states[n].calls[id].cmd
      decreases j
    {
      assert StepAt(states, run, j);
      if run[j].CallStep? { CallMovesAlone(states[j], run[j].call, run[j].call_action); }
      j := j - 1;
    }
    assert StepAt(states, run, j);
    CallMovesAlone(states[j], run[j].call, run[j].call_action);
    clock := OnlyValidateLetsIn(states[j], id, run[j].call_action);
  }

  /** Entry `i` creates a trip whose command has been validated, and was valid by the clock then. */
  ghost predicate ValidatedThenCreated(states: seq<State>, run: seq<Action>, e: Entry, i: nat, j: int, n: nat,
                                       clock: Time)
    requires |states| == |run| + 1
  {
    && 0 <= j < n && Records(states, run, n, i) && run[j] == CallStep(e.call, Validate(clock)) && e.cmd.Create?
    && e.cmd.driverId != NilUuid && HasText(e.cmd.fromPoint) && HasText(e.cmd.toPoint)
    && e.cmd.departureTime > clock && e.cmd.seats > 0
  }

  /** No trip is created but by a command that was valid when its own call was validated, before its commit. */
  lemma ValidationPrecedesCreation(s0: State, states: seq<State>, run: seq<Action>, s: State, i: nat)
    requires Init(s0) && Links(states, run, s0, s) && i < |s.trace| && s.trace[i].cmd.Create?
    ensures exists j, n, clock :: ValidatedThenCreated(states, run, s.trace[i], i, j, n, clock)
  {
    var n := WhoRecorded(s0, states, run, s, i);
    var j, clock := LetInByValidate(states, run, n, s.trace[i].call);
    assert ValidatedThenCreated(states, run, s.trace[i], i, j, n, clock);
  }

  // ----- the seats fit the column -----

  /** A create call past its insert has seats that fit a 32-bit column, and so has every command that has succeeded. */
  predicate CallFits(c: Call) {
    c.cmd.Create? && (c.pc == Inserting || c.pc == Committing) ==> c.cmd.seats <= 2147483647
  }

  predicate EntryFits(e: Entry) {
    e.cmd.Create? && e.verdict == Success ==> e.cmd.seats <= 2147483647
  }

  ghost predicate SeatsFit(s: State) {
    && (forall id :: id in s.calls ==> CallFits(s.calls[id]))
    && (forall i :: 0 <= i < |s.trace| ==> EntryFits(s.trace[i]))
  }

  lemma InsertFits(s: State, id: CallId)
    requires CallEnabled(s, id, Write) && s.calls[id].cmd.Create?
    ensures id in DoInsertTrip(s, id).calls && CallFits(DoInsertTrip(s, id).calls[id])
  {
  }

  lemma LoadFits(s: State, id: CallId)
    ensures CallEnabled(s, id, Read) ==> id in DoRead(s, id).calls && CallFits(DoRead(s, id).calls[id])
    ensures CallEnabled(s, id, VerifyRow) ==> id in DoVerify(s, id).calls && CallFits(DoVerify(s, id).calls[id])
  {
  }

  /** The actions before the block and after it do not bring a call past its insert. */
  lemma EndFits(s: State, id: CallId, a: CallAction)
    requires CallEnabled(s, id, a) && !a.Read? && !a.VerifyRow? && !a.Write? && !a.Insert?
    ensures id in CallNext(s, id, a).calls && CallFits(CallNext(s, id, a).calls[id])
  {
  }

  lemma CallStaysFit(s: State, id: CallId, a: CallAction)
    requires CallEnabled(s, id, a) && (id in s.calls ==> CallFits(s.calls[id])) && MovesAlone(s, id, CallNext(s, id, a))
    ensures CallFits(CallNext(s, id, a).calls[id])
  {
    match a
    case Read => LoadFits(s, id);
    case VerifyRow => LoadFits(s, id);
    case Write => if s.calls[id].cmd.Create? { InsertFits(s, id); }
    case Insert =>
    case _ => EndFits(s, id, a);
  }

  lemma EntriesStayFit(s: State, id: CallId, a: CallAction, s': State)
    requires SeatsFit(s) && RecordsOwn(s, id, a, s')
    ensures forall i :: 0 <= i < |s'.trace| ==> EntryFits(s'.trace[i])
  {
  }

  lemma StepFits(s: State, id: CallId, a: CallAction)
    requires SeatsFit(s) && CallEnabled(s, id, a)
    ensures SeatsFit(CallNext(s, id, a))
  {
    CallMovesAlone(s, id, a);
    RecordedByItself(s, id, a);
    CallStaysFit(s, id, a);
    EntriesStayFit(s, id, a, CallNext(s, id, a));
  }

  lemma {:induction false} RunFits(s: State, run: seq<Action>)
    requires SeatsFit(s) && ValidRun(s, run)
    ensures SeatsFit(Final(s, run))
    decreases |run|
  {
    if run != [] {
      var shorter, last := run[..|run| - 1], run[|run| - 1];
      RunFits(s, shorter);
      if last.CallStep? { StepFits(Final(s, shorter), last.call, last.call_action); }
    }
  }

  /**
   * In every reachable state every trip has a driver, two points with text, at least one seat and at most 2147483647.
   */
  lemma TripsAreValid(s0: State, run: seq<Action>, s: State, t: Uuid)
    requires Init(s0) && Leads(s0, run, s) && t in s.trips
    ensures var trip := s.trips[t];
      && trip.driverId != NilUuid && HasText(trip.fromPoint) && HasText(trip.toPoint)
      && 0 < trip.seats <= 2147483647
  {
    T.CommittedDataIsSerial(s0, run, s);
    LeadsIsFinal(s0, run, s);
    RunFits(s0, run);
    var i :| Creates(s.trace, i, t);
    var states :| Links(states, run, s0, s);
    ValidationPrecedesCreation(s0, states, run, s, i);
    assert SameDetails(CreatedTrip(s.trace[i].cmd, s.trace[i].now), s.trips[t]);
    assert EntryFits(s.trace[i]);
  }
}
